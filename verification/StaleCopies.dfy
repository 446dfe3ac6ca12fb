/** What follows a hang-up that kills a client of which a worker still holds a copy: the copy is written
    back, and when the client's number is accepted again the tables contradict each other. */
module StaleCopies {
  import opened Wrappers
  import opened RingBuffer
  import opened Handshake
  import opened Server
  import opened Dispatcher
  import opened Tokens
  import opened ServerRuns
  import opened Pairing

  // ----- the listener is always heard again -----

  ghost predicate ListenerSomewhere(s: State)
    requires s.ring.Valid()
  {
    s.listener in s.kernel.armed || s.listener in s.batch || s.listener in s.ring.Contents()
    || exists w: nat :: Is(s, w, Started(s.listener))
  }

  ghost predicate Listening(s: State)
    requires Shape(s)
  {
    s.ring.FlagExact() && s.listener != s.timerUnit && s.listener in s.kernel.reg && ListenerSomewhere(s)
  }

  lemma QueueListens(s: State, l: Label)
    requires Shape(s) && Listening(s) && Enabled(s, l) && (l.EpollWait? || l.AddTask? || l.Take?)
    ensures Shape(Apply(s, l)) && Listening(Apply(s, l))
  {
    StepShape(s, l);
    var s' := Apply(s, l);
    match l
    case EpollWait(events) =>
      if w: nat :| Is(s, w, Started(s.listener)) {
        assert Is(s', w, Started(s.listener));
      }
    case AddTask =>
      StoreAppends(s.ring, s.batch[0]);
      if w: nat :| Is(s, w, Started(s.listener)) {
        assert Is(s', w, Started(s.listener));
      }
    case Take(w) =>
      DropTakesHead(s.ring);
      if s.ring.slots[s.ring.front] == s.listener {
        assert Is(s', w, Started(s.listener));
      } else if v: nat :| Is(s, v, Started(s.listener)) {
        assert Is(s', v, Started(s.listener));
      }
  }

  /** A step that leaves the queues alone, and the listener's registration, arming and handler. */
  lemma OtherListens(s: State, s': State)
    requires Shape(s) && Shape(s') && Listening(s)
    requires s'.ring == s.ring && s'.listener == s.listener && s'.timerUnit == s.timerUnit
    requires s.listener in s'.kernel.reg && (s.listener in s.kernel.armed ==> s.listener in s'.kernel.armed)
    requires s.listener in s.batch ==> s.listener in s'.batch
    requires forall w: nat :: Is(s, w, Started(s.listener)) ==> Is(s', w, Started(s.listener))
    ensures Listening(s')
  {
    if w: nat :| Is(s, w, Started(s.listener)) {
      assert Is(s', w, Started(s.listener));
    }
  }

  lemma ClosingListens(s: State, l: Label)
    requires SlabInv(s) && Listening(s) && Enabled(s, l) && (l.SweepTimers? || l.HangUp?)
    ensures Shape(Apply(s, l)) && Listening(Apply(s, l))
  {
    hide HandlerOk;
    StepShape(s, l);
    if l.SweepTimers? {
      DueTimers(s, l.due);
      HandleTimersOnlyCloses(s.kernel, s.slabs, s.log, l.due);
      HandleTimersKeepsFixed(s.kernel, s.slabs, s.log, l.due, s.listener);
    } else {
      assert Owned(s.kernel, s.slabs, s.log, s.listener);
      assert Paired(s.kernel, s.slabs, s.batch[0]);
    }
    OtherListens(s, Apply(s, l));
  }

  lemma HandlerListens(s: State, l: Label)
    requires SlabInv(s) && Listening(s) && Enabled(s, l)
    requires !l.EpollWait? && !l.AddTask? && !l.Take? && !l.SweepTimers? && !l.HangUp? && !l.Accept?
    ensures Shape(Apply(s, l)) && Listening(Apply(s, l))
  {
    hide HandlerOk;
    StepShape(s, l);
    if l.Greet? {
      assert Owned(s.kernel, s.slabs, s.log, s.listener);
      assert Paired(s.kernel, s.slabs, s.workers[l.w].fd);
    }
    OtherListens(s, Apply(s, l));
  }

  lemma StepListens(s: State, l: Label)
    requires SlabInv(s) && Listening(s) && Enabled(s, l)
    ensures Shape(Apply(s, l)) && Listening(Apply(s, l))
  {
    hide TablesOk, HandlerOk, Apply, Enabled;
    if l.EpollWait? || l.AddTask? || l.Take? {
      QueueListens(s, l);
    } else if l.SweepTimers? || l.HangUp? {
      ClosingListens(s, l);
    } else if l.Accept? {
      AcceptListens(s, l.w, l.fd, l.timer);
    } else {
      HandlerListens(s, l);
    }
  }

  lemma AcceptListens(s: State, w: nat, fd: int, timer: int)
    requires Shape(s) && Listening(s) && Enabled(s, Accept(w, fd, timer))
    ensures Shape(Apply(s, Accept(w, fd, timer))) && Listening(Apply(s, Accept(w, fd, timer)))
  {
    StepShape(s, Accept(w, fd, timer));
  }

  lemma {:induction false} RunListens(s: State, ls: seq<Label>)
    requires SlabInv(s) && Listening(s) && CanRun(s, ls) && KillSafeRun(s, ls)
    ensures SlabInv(Exec(s, ls)) && Listening(Exec(s, ls))
    decreases |ls|
  {
    hide Apply, Enabled, SlabInv, KillSafe, Listening;
    if ls != [] {
      StepSlabs(s, ls[0]);
      StepListens(s, ls[0]);
      RunListens(Apply(s, ls[0]), ls[1..]);
    }
  }

  lemma InitListens(s: State)
    requires Init(s)
    ensures SlabInv(s) && Listening(s)
  {
    InitSlabs(s);
  }

  // ----- a server that goes on -----

  /** The entry at f leads to a slot whose own descriptors lead to it. */
  ghost predicate RootedAt(t: Slabs, f: int)
    requires t.Sized() && 0 <= f < |t.slot|
  {
    var x := t.slot[f];
    && 0 < x < |t.clients| && t.clients[x].sock == x && t.slot[x] == x && t.clients[x].pty < |t.clients|
    && if t.clients[x].state == New then t.clients[x].pty == -1
       else 0 < t.clients[x].pty && t.slot[t.clients[x].pty] == x
  }

  ghost predicate Rooted(t: Slabs) {
    t.Sized() && forall f | 0 <= f < |t.slot| && t.slot[f] != NONE :: RootedAt(t, f)
  }

  lemma TablesRooted(k: Kernel, t: Slabs, log: seq<Stream>)
    requires TablesOk(k, t, log)
    ensures Rooted(t)
  {
    forall f | 0 <= f < |t.slot| && t.slot[f] != NONE ensures RootedAt(t, f) {
      assert Paired(k, t, f);
    }
  }

  /** A copy just taken is the slot itself, and storing it back changes nothing. */
  lemma RootedCopy(t: Slabs, f: int)
    requires Rooted(t) && 0 <= f < |t.slot| && t.slot[f] != NONE
    ensures Known(t, f) && CopyOf(t, f) == t.clients[t.slot[f]] && CopyOf(t, f).sock == t.slot[f]
    ensures t.slot[t.slot[f]] == t.slot[f] && StoreClient(t, CopyOf(t, f)) == t
  {
    assert RootedAt(t, f);
    var c := t.clients[t.slot[f]];
    assert t.clients[c.sock := c] == t.clients;
    assert t.slot[c.sock := c.sock] == t.slot;
  }

  /** The tables are in order, the listener will be heard, and the numbers a and p are free. */
  ghost predicate Going(s: State, a: int, p: int) {
    && Shape(s) && Rooted(s.slabs) && Listening(s)
    && s.slabs.slot[s.listener] == NONE
    && Fresh(s, a) && Fresh(s, p) && a != p
  }

  /** Worker v has become idle; nothing else a task depends on has changed. */
  ghost predicate WentIdle(s: State, s': State, v: nat) {
    && v < |s.workers| && s'.workers == s.workers[v := Idle]
    && s'.slabs == s.slabs && s'.batch == s.batch && s'.ring == s.ring
    && s'.listener == s.listener && s'.timerUnit == s.timerUnit
  }

  /** Worker v leaves a task on which nothing is known. */
  lemma IgnoreTask(s: State, v: nat, a: int, p: int) returns (s': State)
    requires Going(s, a, p) && Enabled(s, Ignore(v))
    ensures Reach(s, s') && Going(s', a, p) && WentIdle(s, s', v)
  {
    hide Reach;
    ReachSelf(s);
    s' := Then(s, s, Ignore(v));
    OtherListens(s, s');
  }

  /** Worker v refuses a connection that sent nothing. */
  lemma RefuseTask(s: State, v: nat, a: int, p: int) returns (s': State)
    requires Going(s, a, p) && StartedOn(s, v, New)
    ensures Reach(s, s') && Going(s', a, p) && WentIdle(s, s', v)
  {
    hide Reach;
    RootedCopy(s.slabs, s.workers[v].fd);
    ReachSelf(s);
    s' := Then(s, s, Greet(v, None, p));
    OtherListens(s, s');
  }

  /** Worker v cannot read from an established client. */
  lemma FailTask(s: State, v: nat, a: int, p: int) returns (s': State)
    requires Going(s, a, p) && StartedOn(s, v, Established)
    ensures Reach(s, s') && Going(s', a, p) && WentIdle(s, s', v)
  {
    hide Reach;
    RootedCopy(s.slabs, s.workers[v].fd);
    ReachSelf(s);
    s' := Then(s, s, ReadFails(v));
    s' := Then(s, s', Rearm(v));
    s' := Then(s, s', StoreBack(v));
    assert s'.workers == s.workers[v := Idle];
    OtherListens(s, s');
  }

  /** Any task but the listener's can be brought to an end without touching the tables. */
  lemma HandleTask(s: State, v: nat, a: int, p: int) returns (s': State)
    requires Going(s, a, p) && v < |s.workers| && s.workers[v].Started? && s.workers[v].fd != s.listener
    ensures Reach(s, s') && Going(s', a, p) && WentIdle(s, s', v)
  {
    hide Reach, Listening;
    if !Known(s.slabs, s.workers[v].fd) {
      s' := IgnoreTask(s, v, a, p);
    } else {
      RootedCopy(s.slabs, s.workers[v].fd);
      if CopyOf(s.slabs, s.workers[v].fd).state == New {
        s' := RefuseTask(s, v, a, p);
      } else {
        s' := FailTask(s, v, a, p);
      }
    }
  }

  // ----- a free number is accepted -----

  /** The number a was accepted again, its timer on p; the copies that workers other than v hold are
      as they were. */
  ghost predicate AcceptedAgain(s: State, s': State, v: nat, a: int, p: int)
    requires s.slabs.Sized() && 0 < a < |s.slabs.clients| && 0 < p < |s.slabs.clients|
  {
    && Shape(s') && s'.slabs == AcceptTables(s.kernel, s.slabs, a, p).1
    && a in s'.kernel.open && s'.kernel.open[a] == Socket && s'.log[a] == Stream(None, "", REMBASH)
    && |s'.workers| == |s.workers|
    && (forall u | 0 <= u < |s.workers| && u != v && !s.workers[u].Started? :: s'.workers[u] == s.workers[u])
  }

  lemma AcceptNow(s: State, u: nat, v: nat, a: int, p: int) returns (s': State)
    requires Going(s, a, p) && Is(s, u, Started(s.listener))
    ensures Reach(s, s') && AcceptedAgain(s, s', v, a, p)
  {
    hide Reach;
    ReachSelf(s);
    s' := Then(s, s, Accept(u, a, p));
  }

  /** With nothing queued, the listener's event goes straight to worker v. */
  lemma AcceptNext(s: State, v: nat, a: int, p: int) returns (s': State)
    requires Going(s, a, p) && Is(s, v, Idle) && s.batch == [] && s.ring.Empty() && s.listener in s.kernel.armed
    ensures Reach(s, s') && AcceptedAgain(s, s', v, a, p)
  {
    hide Reach;
    var s1 := Dispatch(s, v, s.listener);
    s' := Then(s, s1, Accept(v, a, p));
  }

  /** Tasks in the batch take two more steps before a worker starts on them, those in the ring one. */
  ghost function Backlog(s: State): nat
    requires Shape(s)
  {
    2 * |s.batch| + |s.ring.Contents()|
  }

  /** Worker v takes the oldest task and, unless it is the listener's, brings it to an end. */
  lemma TakeAndHandle(s: State, v: nat, a: int, p: int) returns (s': State)
    requires Going(s, a, p) && Is(s, v, Idle) && !s.ring.Empty()
    ensures Reach(s, s') && Going(s', a, p) && s'.slabs == s.slabs && Backlog(s') < Backlog(s)
    ensures s'.listener == s.listener && |s'.workers| == |s.workers| && s'.workers == s.workers[v := s'.workers[v]]
    ensures s'.workers[v] == Idle || s'.workers[v] == Started(s.listener)
  {
    hide Reach;
    OccupancyBounds(s.ring);
    DropTakesHead(s.ring);
    QueueListens(s, Take(v));
    ReachSelf(s);
    s' := Then(s, s, Take(v));
    if s'.workers[v] != Idle && s'.workers[v].fd != s.listener {
      var s1 := s';
      s' := HandleTask(s1, v, a, p);
      ReachTrans(s, s1, s');
    }
  }

  /** The event loop queues one event, or finds that no timer has fired. */
  lemma PopEvent(s: State, a: int, p: int) returns (s': State)
    requires Going(s, a, p) && s.batch != [] && s.ring.Empty()
    ensures Reach(s, s') && Going(s', a, p) && s'.slabs == s.slabs && Backlog(s') < Backlog(s)
    ensures s'.listener == s.listener && s'.workers == s.workers
  {
    hide Reach;
    OccupancyBounds(s.ring);
    ReachSelf(s);
    if s.batch[0] == s.timerUnit {
      s' := Then(s, s, SweepTimers([]));
      OtherListens(s, s');
    } else {
      StoreAppends(s.ring, s.batch[0]);
      QueueListens(s, AddTask);
      s' := Then(s, s, AddTask);
    }
  }

  /** Worker v alone can work off what is queued until the listener's event comes up and the number a
      is accepted. */
  lemma {:induction false} AcceptEventually(s: State, v: nat, a: int, p: int) returns (s': State)
    requires Going(s, a, p) && v < |s.workers| && (s.workers[v] == Idle || s.workers[v] == Started(s.listener))
    ensures Reach(s, s') && AcceptedAgain(s, s', v, a, p)
    decreases Backlog(s)
  {
    hide Reach;
    if Is(s, v, Started(s.listener)) {
      s' := AcceptNow(s, v, v, a, p);
    } else if u: nat :| Is(s, u, Started(s.listener)) {
      s' := AcceptNow(s, u, v, a, p);
    } else if !s.ring.Empty() {
      var s1 := TakeAndHandle(s, v, a, p);
      s' := AcceptEventually(s1, v, a, p);
      ReachTrans(s, s1, s');
    } else if s.batch != [] {
      var s1 := PopEvent(s, a, p);
      s' := AcceptEventually(s1, v, a, p);
      ReachTrans(s, s1, s');
    } else {
      OccupancyBounds(s.ring);
      s' := AcceptNext(s, v, a, p);
    }
  }

  // ----- writing a copy back -----

  predicate HasCopy(h: Handler) { h.Writing? || h.Rearming? || h.Storing? }

  /** A writing handler writes for the client it has the copy of. */
  predicate OwnCopy(h: Handler) {
    HasCopy(h) && h.copy.sock > 0 && (h.Writing? ==> h.at == h.copy.sock)
  }

  /** Worker v has written its copy back; only arming and relayed bytes have changed besides. */
  ghost predicate WroteBack(s: State, s': State, v: nat) {
    && Shape(s) && Shape(s') && v < |s.workers| && OwnCopy(s.workers[v])
    && s'.slabs == StoreClient(s.slabs, s.workers[v].copy) && s'.workers == s.workers[v := Idle]
    && s'.kernel.open == s.kernel.open && s'.kernel.reg == s.kernel.reg && s.kernel.armed <= s'.kernel.armed
    && s'.batch == s.batch && s'.ring == s.ring && s'.listener == s.listener && s'.timerUnit == s.timerUnit
    && |s'.log| == |s.log| && (forall f | 0 <= f < |s.log| :: s'.log[f].hello == s.log[f].hello)
  }

  function StepsToStore(h: Handler): int {
    if h.Writing? then 2 else if h.Rearming? then 1 else 0
  }

  lemma WriteBack(s: State, v: nat) returns (s': State)
    requires Shape(s) && v < |s.workers| && OwnCopy(s.workers[v])
    ensures Reach(s, s') && WroteBack(s, s', v)
    decreases StepsToStore(s.workers[v])
  {
    hide Reach;
    ReachSelf(s);
    var c := s.workers[v].copy;
    if s.workers[v].Storing? {
      s' := Then(s, s, StoreBack(v));
    } else {
      var s1 := Then(s, s, if s.workers[v].Writing? then Write(v) else Rearm(v));
      s' := WriteBack(s1, v);
      ReachTrans(s, s1, s');
      assert s1.slabs.clients[c.sock := c] == s.slabs.clients[c.sock := c];
      assert s1.workers[v := Idle] == s.workers[v := Idle];
    }
  }

  // ----- after a kill -----

  /** The slot, and the two descriptors, of the client that hangs up. */
  function Victim(s: State): Client
    requires s.batch != [] && 0 <= s.batch[0] < |s.slabs.slot| && 0 <= s.slabs.slot[s.batch[0]] < |s.slabs.clients|
  {
    s.slabs.clients[s.slabs.slot[s.batch[0]]]
  }

  lemma VictimIsLive(s: State)
    requires SlabInv(s) && KillingHangUp(s)
    ensures var c := Victim(s);
      c.sock == s.slabs.slot[s.batch[0]] && c.state == Established && Live(s.kernel, s.slabs, c.sock)
  {
    assert Paired(s.kernel, s.slabs, s.batch[0]);
  }

  lemma KillLeavesCopies(s: State, w: nat)
    requires SlabInv(s) && KillingHangUp(s) && w < |s.workers| && HasCopy(s.workers[w])
    ensures OwnCopy(s.workers[w])
    ensures if HoldsCopy(s.workers[w], Victim(s).sock) then s.workers[w].copy == Victim(s)
            else CopyCurrent(HangUpStep(s).slabs, s.workers[w].copy)
  {
    VictimIsLive(s);
    assert HandlerOk(s.slabs, s.workers[w]);
    KillKeepsTables(s.kernel, s.slabs, s.log, s.batch[0]);
  }

  lemma KillGoesOn(s: State)
    requires SlabInv(s) && Listening(s) && KillingHangUp(s)
    ensures var s1, c := HangUpStep(s), Victim(s);
      && Going(s1, c.sock, c.pty) && s1.workers == s.workers
      && s1.slabs.slot[c.sock] == s1.slabs.slot[c.pty] == NONE
  {
    hide HandlerOk;
    VictimIsLive(s);
    var s1 := HangUpStep(s);
    KillKeepsTables(s.kernel, s.slabs, s.log, s.batch[0]);
    TablesRooted(s1.kernel, s1.slabs, s1.log);
    ClosingListens(s, HangUp);
    assert Owned(s.kernel, s.slabs, s.log, s.listener);
  }

  /** Storing the copy of a killed client makes its entries again. */
  lemma StaleStoreRooted(t: Slabs, c: Client)
    requires Rooted(t) && 0 < c.sock < |t.clients| && 0 < c.pty < |t.clients| && c.sock != c.pty
    requires c.state == Established
    requires t.slot[c.sock] == t.slot[c.pty] == NONE
    ensures Rooted(StoreClient(t, c))
  {
    var t' := StoreClient(t, c);
    forall f | 0 <= f < |t'.slot| && t'.slot[f] != NONE ensures RootedAt(t', f) {
      if f != c.sock && f != c.pty {
        assert RootedAt(t, f);
      }
    }
  }

  /** A server that goes on still does after a worker has written back a current copy or the killed
      client's. */
  lemma WriteBackGoesOn(s: State, s': State, v: nat, c: Client)
    requires Going(s, c.sock, c.pty) && WroteBack(s, s', v) && c.state == Established
    requires CopyCurrent(s.slabs, s.workers[v].copy) ||
      (s.workers[v].copy == c && s.slabs.slot[c.sock] == s.slabs.slot[c.pty] == NONE)
    ensures Going(s', c.sock, c.pty)
  {
    if CopyCurrent(s.slabs, s.workers[v].copy) {
      RootedCopy(s.slabs, s.workers[v].copy.sock);
    } else {
      StaleStoreRooted(s.slabs, c);
    }
    OtherListens(s, s');
  }

  /** If worker w holds a copy, its write-back and an accept of the same number part the PTY's old entry
      from its slot. */
  lemma CopyMispairs(s: State, w: nat) returns (s': State)
    requires SlabInv(s) && Listening(s) && KillingHangUp(s)
    requires w < |s.workers| && HoldsCopy(s.workers[w], s.slabs.slot[s.batch[0]])
    ensures Shape(HangUpStep(s)) && Reach(HangUpStep(s), s') && !Pairs(s'.slabs)
  {
    hide Reach, TablesOk, HandlerOk, Listening, Rooted, KillTables;
    var s1, c := HangUpStep(s), Victim(s);
    VictimIsLive(s);
    KillGoesOn(s);
    KillLeavesCopies(s, w);
    var s2 := WriteBack(s1, w);
    WriteBackGoesOn(s1, s2, w, c);
    s' := AcceptEventually(s2, w, c.sock, c.pty);
    ReachTrans(s1, s2, s');
    assert s'.slabs.slot[c.pty] == c.sock && !EntryPaired(s'.slabs, c.pty);
  }

  /** Worker v finishes what it is doing, unless that is the listener's task. */
  lemma Finish(s: State, s1: State, v: nat) returns (s2: State)
    requires SlabInv(s) && Listening(s) && KillingHangUp(s) && s1 == HangUpStep(s) && v < |s.workers|
    ensures Reach(s1, s2) && Going(s2, Victim(s).sock, Victim(s).pty)
    ensures |s2.workers| == |s1.workers| && s2.workers == s1.workers[v := s2.workers[v]]
    ensures s2.listener == s.listener && (s2.workers[v] == Idle || s2.workers[v] == Started(s2.listener))
  {
    hide Reach, TablesOk, HandlerOk, Listening, Rooted, KillTables;
    var c := Victim(s);
    KillGoesOn(s);
    VictimIsLive(s);
    if HasCopy(s1.workers[v]) {
      KillLeavesCopies(s, v);
      s2 := WriteBack(s1, v);
      WriteBackGoesOn(s1, s2, v, c);
    } else if s1.workers[v].Started? && s1.workers[v].fd != s1.listener {
      s2 := HandleTask(s1, v, c.sock, c.pty);
    } else {
      ReachSelf(s1);
      s2 := s1;
    }
  }

  /** With a second worker v the number can be accepted before w writes its copy back, and the fresh
      connection is established without a word. */
  lemma CopyForges(s: State, w: nat, v: nat) returns (s': State)
    requires SlabInv(s) && Listening(s) && KillingHangUp(s)
    requires w < |s.workers| && HoldsCopy(s.workers[w], s.slabs.slot[s.batch[0]]) && v < |s.workers| && v != w
    ensures Shape(HangUpStep(s)) && Reach(HangUpStep(s), s') && Shape(s') && Forged(s')
  {
    hide Reach, TablesOk, HandlerOk, Listening, Rooted, KillTables;
    var s1, c := HangUpStep(s), Victim(s);
    VictimIsLive(s);
    KillGoesOn(s);
    KillLeavesCopies(s, w);
    var s2 := Finish(s, s1, v);
    var s3 := AcceptEventually(s2, v, c.sock, c.pty);
    s' := WriteBack(s3, w);
    ReachTrans(s1, s2, s3);
    ReachTrans(s1, s3, s');
    assert Forgery(s', c.sock);
  }

  // ----- exactly -----

  /** Some run from s without further hang-ups parts entries from their slots. */
  ghost predicate MispairsLater(s: State) {
    exists ls :: CanRun(s, ls) && NoHangUps(ls) && !Pairs(Exec(s, ls).slabs)
  }

  /** Some run from s without further hang-ups bypasses the handshake, or even forges a slot. */
  ghost predicate BypassesLater(s: State) {
    exists ls :: CanRun(s, ls) && NoHangUps(ls) && Bypassed(Exec(s, ls))
  }

  ghost predicate ForgesLater(s: State) {
    exists ls :: CanRun(s, ls) && NoHangUps(ls) && Forged(Exec(s, ls))
  }

  lemma ReachIsRun(s: State, s': State) returns (ls: seq<Label>)
    requires Reach(s, s')
    ensures CanRun(s, ls) && Plain(ls) && NoHangUps(ls) && Exec(s, ls) == s'
  {
    ls :| CanRun(s, ls) && Plain(ls) && Exec(s, ls) == s';
  }

  /** A state in order stays in order as long as nobody hangs up. */
  lemma OrderLasts(s: State)
    requires SlabInv(s)
    ensures !MispairsLater(s) && !BypassesLater(s) && !ForgesLater(s)
  {
    forall ls | CanRun(s, ls) && NoHangUps(ls)
      ensures Pairs(Exec(s, ls).slabs) && !Bypassed(Exec(s, ls)) && !Forged(Exec(s, ls))
    {
      NoHangUpsIsKillSafe(s, ls);
      RunSlabs(s, ls);
      SlabsPair(Exec(s, ls));
      SlabsGate(Exec(s, ls));
    }
  }

  /** Whatever kill-safe run came before: after a hang-up that closes a client, some run without further
      hang-ups breaks the pairing, or the pairing or the gate, if and only if a worker holds a copy of
      that client. */
  lemma {:induction false} MispairedExactly(s0: State, ls: seq<Label>)
    requires Init(s0) && CanRun(s0, ls) && KillSafeRun(s0, ls) && KillingHangUp(Exec(s0, ls))
    ensures var s := Exec(s0, ls);
      && (MispairsLater(HangUpStep(s)) <==> CopyHeld(s, Victim(s).sock))
      && (MispairsLater(HangUpStep(s)) || BypassesLater(HangUpStep(s)) <==> CopyHeld(s, Victim(s).sock))
  {
    var s := Exec(s0, ls);
    InitListens(s0);
    RunListens(s0, ls);
    VictimIsLive(s);
    if w: nat :| w < |s.workers| && HoldsCopy(s.workers[w], Victim(s).sock) {
      var s' := CopyMispairs(s, w);
      var more := ReachIsRun(HangUpStep(s), s');
    } else {
      HangUpSlabs(s);
      OrderLasts(HangUpStep(s));
    }
  }
}
