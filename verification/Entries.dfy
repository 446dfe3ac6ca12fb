/** What holds of the tables in every run at all, hang-ups at any time, and what one worker keeps. */
module Entries {
  import opened Wrappers
  import opened Handshake
  import opened Server
  import opened Dispatcher
  import opened Sweeps
  import opened ServerRuns
  import opened Pairing
  import opened StaleCopies

  // ----- every run -----

  /** An entry leads to its own socket's slot, or to that of a killed client. */
  ghost predicate EntryOk(t: Slabs, f: int)
    requires t.Sized() && TimersInRange(t) && 0 <= f < |t.slot|
  {
    t.slot[f] != NONE ==> 0 < t.slot[f] && (t.clients[t.slot[f]].sock == t.slot[f] || t.clients[t.slot[f]].sock == -1)
  }

  ghost predicate EntryInv(s: State) {
    && Shape(s)
    && (forall f | 0 <= f < |s.slabs.slot| :: EntryOk(s.slabs, f))
    && (forall m | m in s.kernel.timers :: s.kernel.open[m] == Timer)
    && (forall w | 0 <= w < |s.workers| && HasCopy(s.workers[w]) :: OwnCopy(s.workers[w]))
  }

  lemma EntryKnown(t: Slabs, f: int)
    requires t.Sized() && TimersInRange(t) && 0 <= f < |t.slot| && EntryOk(t, f) && Known(t, f)
    ensures t.clients[t.slot[f]].sock == t.slot[f] > 0 && CopyOf(t, f) == t.clients[t.slot[f]]
  {
  }

  lemma StoreKeepsEntries(t: Slabs, c: Client)
    requires t.Sized() && TimersInRange(t) && (forall f | 0 <= f < |t.slot| :: EntryOk(t, f))
    requires 0 < c.sock < |t.clients| && c.pty < |t.clients|
    ensures var t' := StoreClient(t, c);
      t'.Sized() && TimersInRange(t') && forall f | 0 <= f < |t'.slot| :: EntryOk(t', f)
  {
    forall f | 0 <= f < |t.slot| ensures EntryOk(StoreClient(t, c), f) {
      assert EntryOk(t, f);
    }
  }

  lemma KillKeepsEntries(k: Kernel, t: Slabs, fd: int)
    requires t.Sized() && TimersInRange(t) && (forall f | 0 <= f < |t.slot| :: EntryOk(t, f))
    requires 0 <= fd < |t.slot| && k.InRange(|t.clients|)
    ensures var t' := KillTables(k, t, fd).1;
      t'.Sized() && TimersInRange(t') && forall f | 0 <= f < |t'.slot| :: EntryOk(t', f)
  {
    forall f | 0 <= f < |t.slot| ensures EntryOk(KillTables(k, t, fd).1, f) {
      assert EntryOk(t, f);
    }
  }

  lemma {:induction false} SweepAddsNoTimer(k: Kernel, t: Slabs, due: seq<int>)
    requires t.Sized() && TimersInRange(t) && forall i | 0 <= i < |due| :: 0 <= due[i] < |t.timerFor|
    ensures Sweep(k, t, due).0.timers <= k.timers
    decreases |due|
  {
    if due != [] {
      var fd := t.timerFor[due[0]];
      var k1 := if Stalled(t, fd) then k.Unregister(fd).Close(fd) else k;
      if !(Stalled(t, fd) && fd !in k.reg) && due[0] in k1.timers {
        SweepAddsNoTimer(k1.Close(due[0]), t, due[1..]);
      }
    }
  }

  lemma GreetEntries(s: State, w: nat, message: Option<string>, pty: int)
    requires EntryInv(s) && Enabled(s, Greet(w, message, pty))
    ensures EntryInv(GreetStep(s, w, message, pty))
  {
    GreetShape(s, w, message, pty);
    EntryKnown(s.slabs, s.workers[w].fd);
    var c := CopyOf(s.slabs, s.workers[w].fd);
    StoreKeepsEntries(s.slabs, c);
    StoreKeepsEntries(s.slabs, Client(c.sock, pty, Established));
  }

  lemma AcceptEntries(s: State, w: nat, fd: int, timer: int)
    requires EntryInv(s) && Enabled(s, Accept(w, fd, timer))
    ensures EntryInv(AcceptStep(s, w, fd, timer))
  {
    AcceptShape(s, w, fd, timer);
    var t' := AcceptStep(s, w, fd, timer).slabs;
    forall f | 0 <= f < |t'.slot| ensures EntryOk(t', f) {
      assert EntryOk(s.slabs, f);
    }
  }

  lemma HandlerEntries(s: State, l: Label)
    requires EntryInv(s) && Enabled(s, l)
    requires l.Read? || l.ReadFails? || l.Ignore? || l.Write? || l.Rearm? || l.StoreBack?
    ensures EntryInv(Apply(s, l))
  {
    RelayShape(s, l);
    match l
    case Read(w, _) => EntryKnown(s.slabs, s.workers[w].fd);
    case ReadFails(w) => EntryKnown(s.slabs, s.workers[w].fd);
    case StoreBack(w) => StoreKeepsEntries(s.slabs, s.workers[w].copy);
    case Write(w) =>
      forall f | 0 <= f < |s.slabs.slot| ensures EntryOk(Apply(s, l).slabs, f) {
        assert EntryOk(s.slabs, f);
      }
    case _ =>
  }

  lemma QueueEntries(s: State, l: Label)
    requires EntryInv(s) && Enabled(s, l) && (l.EpollWait? || l.AddTask? || l.SweepTimers? || l.Take?)
    ensures EntryInv(Apply(s, l))
  {
    QueueShape(s, l);
    if l.SweepTimers? {
      SweepAddsNoTimer(s.kernel.Report(l.due), s.slabs, l.due);
      SweepOnlyClosesKinds(s.kernel.Report(l.due), s.slabs, l.due);
    }
  }

  lemma HangUpEntries(s: State)
    requires EntryInv(s) && Enabled(s, HangUp)
    ensures EntryInv(HangUpStep(s))
  {
    HangUpShape(s);
    KillKeepsEntries(s.kernel, s.slabs, s.batch[0]);
  }

  lemma StepEntries(s: State, l: Label)
    requires EntryInv(s) && Enabled(s, l)
    ensures EntryInv(Apply(s, l))
  {
    hide EntryInv;
    match l
    case Accept(w, fd, timer) => AcceptEntries(s, w, fd, timer);
    case Greet(w, message, pty) => GreetEntries(s, w, message, pty);
    case HangUp => HangUpEntries(s);
    case EpollWait(_) => QueueEntries(s, l);
    case AddTask => QueueEntries(s, l);
    case SweepTimers(_) => QueueEntries(s, l);
    case Take(_) => QueueEntries(s, l);
    case _ => HandlerEntries(s, l);
  }

  lemma {:induction false} RunEntries(s: State, ls: seq<Label>)
    requires EntryInv(s) && CanRun(s, ls)
    ensures EntryInv(Exec(s, ls))
    decreases |ls|
  {
    hide EntryInv, Apply, Enabled;
    if ls != [] {
      StepEntries(s, ls[0]);
      RunEntries(Apply(s, ls[0]), ls[1..]);
    }
  }

  /** The sweep closes a timer, or a connection whose entry leads to a client in the `new` state. */
  lemma {:induction false} SweepSpares(k: Kernel, t: Slabs, due: seq<int>, f: int)
    requires t.Sized() && TimersInRange(t) && forall i | 0 <= i < |due| :: 0 <= due[i] < |t.timerFor|
    requires f in k.open && f !in k.timers && 0 <= f < |t.slot| && !Stalled(t, f)
    ensures f in Sweep(k, t, due).0.open
    decreases |due|
  {
    if due != [] {
      var fd := t.timerFor[due[0]];
      var k1 := if Stalled(t, fd) then k.Unregister(fd).Close(fd) else k;
      if !(Stalled(t, fd) && fd !in k.reg) && due[0] in k1.timers {
        SweepSpares(k1.Close(due[0]), t, due[1..], f);
      }
    }
  }

  /** In every run, hang-ups at any time included: a timer sweep never closes a connection or PTY that
      the server takes for an established client's, whatever timers fired, in whatever order, and
      whatever numbers timer_slab still holds. */
  lemma {:induction false} TimersSpareEstablished(s0: State, ls: seq<Label>, due: seq<int>, f: int)
    requires Init(s0) && CanRun(s0, ls) && Enabled(Exec(s0, ls), SweepTimers(due))
    requires var s := Exec(s0, ls);
      && f in s.kernel.open && (s.kernel.open[f] == Socket || s.kernel.open[f] == Pty)
      && Known(s.slabs, f) && CopyOf(s.slabs, f).state == Established
    ensures f in Apply(Exec(s0, ls), SweepTimers(due)).kernel.open
  {
    RunEntries(s0, ls);
    var s := Exec(s0, ls);
    EntryKnown(s.slabs, f);
    SweepSpares(s.kernel.Report(due), s.slabs, due, f);
  }

  // ----- a killed client's slot -----

  /** The step neither accepts number a nor writes back a copy of its old client. */
  ghost predicate LeavesDead(s: State, l: Label, a: int)
    requires Shape(s) && Enabled(s, l)
  {
    (l.Accept? ==> l.fd != a) && (l.StoreBack? ==> s.workers[l.w].copy.sock != a)
  }

  ghost predicate LeftDead(s: State, ls: seq<Label>, a: int)
    requires CanRun(s, ls)
    decreases |ls|
  {
    ls != [] ==> LeavesDead(s, ls[0], a) && LeftDead(Apply(s, ls[0]), ls[1..], a)
  }

  lemma StepLeavesDead(s: State, l: Label, a: int)
    requires EntryInv(s) && Enabled(s, l) && LeavesDead(s, l, a)
    requires 0 <= a < Max(s) && s.slabs.clients[a].sock == -1
    ensures a < Max(Apply(s, l)) && Apply(s, l).slabs.clients[a].sock == -1
  {
    StepKeepsSizes(s, l);
    if l.Greet? {
      EntryKnown(s.slabs, s.workers[l.w].fd);
    }
  }

  lemma {:induction false} RunLeavesDead(s: State, ls: seq<Label>, a: int)
    requires EntryInv(s) && CanRun(s, ls) && LeftDead(s, ls, a)
    requires 0 <= a < Max(s) && s.slabs.clients[a].sock == -1
    ensures a < Max(Exec(s, ls)) && Exec(s, ls).slabs.clients[a].sock == -1
    decreases |ls|
  {
    hide EntryInv, Apply, Enabled, LeavesDead;
    if ls != [] {
      StepEntries(s, ls[0]);
      StepLeavesDead(s, ls[0], a);
      RunLeavesDead(Apply(s, ls[0]), ls[1..], a);
    }
  }

  lemma KillUnclaims(s: State)
    requires EntryInv(s) && KillingHangUp(s)
    ensures var a, t' := s.slabs.slot[s.batch[0]], HangUpStep(s).slabs;
      && 0 < a < |t'.clients| && t'.clients[a].sock == -1 && Victim(s).sock == a
      && t'.slot[a] == NONE && t'.slot[s.slabs.clients[a].pty] == NONE
  {
    assert EntryOk(s.slabs, s.batch[0]);
  }

  /** In every run, from the hang-up that closes a client until its number is accepted again or a copy of it
      is written back: its slot claims no number, and no entry leads through it to a client. */
  lemma {:induction false} KilledStaysUnclaimed(s0: State, before: seq<Label>, after: seq<Label>)
    requires Init(s0) && CanRun(s0, before) && KillingHangUp(Exec(s0, before))
    requires var s := Exec(s0, before);
      CanRun(HangUpStep(s), after) && LeftDead(HangUpStep(s), after, Victim(s).sock)
    ensures var a, t := Victim(Exec(s0, before)).sock, Exec(HangUpStep(Exec(s0, before)), after).slabs;
      && 0 < a < |t.clients| && t.clients[a].sock == -1
      && forall f | 0 <= f < |t.slot| && t.slot[f] == a :: !Known(t, f)
  {
    hide LeftDead;
    var s := Exec(s0, before);
    RunEntries(s0, before);
    KillUnclaims(s);
    HangUpEntries(s);
    RunLeavesDead(HangUpStep(s), after, Victim(s).sock);
  }

  // ----- one worker -----

  /** Slot x, if its connection is open and established, sent the secret. */
  ghost predicate SlotGated(s: State, x: int)
    requires Shape(s)
  {
    && x in s.kernel.open && s.kernel.open[x] == Socket
    && s.slabs.clients[x].sock == x && s.slabs.clients[x].state == Established
    ==> GivesSecret(s.log[x].hello)
  }

  /** A handler's copy is of a client that sent the secret, unless its connection is closed by now. */
  ghost predicate CopyGated(s: State, h: Handler)
    requires Shape(s) && HandlerInRange(h, Max(s))
  {
    HasCopy(h) ==>
      && h.copy.state == Established
      && var a := h.copy.sock;
         (a in s.kernel.open && s.kernel.open[a] == Socket ==> GivesSecret(s.log[a].hello))
  }

  /** With at most one worker no number is accepted between the reading of a copy and its writing back. */
  ghost predicate SoloInv(s: State) {
    && EntryInv(s) && |s.workers| <= 1
    && (forall x | 0 <= x < Max(s) :: SlotGated(s, x))
    && (forall w | 0 <= w < |s.workers| :: CopyGated(s, s.workers[w]))
  }

  /** Closing descriptors, and steps of the event loop, leave both as they were. */
  lemma ClosingSolo(s: State, s': State)
    requires SoloInv(s) && EntryInv(s') && s'.log == s.log && Max(s') == Max(s) && |s'.workers| == |s.workers|
    requires forall f | f in s'.kernel.open :: f in s.kernel.open && s'.kernel.open[f] == s.kernel.open[f]
    requires forall x | 0 <= x < Max(s) && s'.slabs.clients[x].sock == x :: s'.slabs.clients[x] == s.slabs.clients[x]
    requires forall w | 0 <= w < |s.workers| && HasCopy(s'.workers[w]) :: s'.workers[w] == s.workers[w]
    ensures SoloInv(s')
  {
    forall x | 0 <= x < Max(s') ensures SlotGated(s', x) {
      assert SlotGated(s, x);
    }
    forall w | 0 <= w < |s'.workers| ensures CopyGated(s', s'.workers[w]) {
      assert CopyGated(s, s.workers[w]);
    }
  }

  lemma HangUpSolo(s: State)
    requires SoloInv(s) && Enabled(s, HangUp)
    ensures SoloInv(HangUpStep(s))
  {
    HangUpEntries(s);
    assert EntryOk(s.slabs, s.batch[0]);
    ClosingSolo(s, HangUpStep(s));
  }

  lemma QueueSolo(s: State, l: Label)
    requires SoloInv(s) && Enabled(s, l) && (l.EpollWait? || l.AddTask? || l.SweepTimers? || l.Take?)
    ensures SoloInv(Apply(s, l))
  {
    QueueEntries(s, l);
    if l.SweepTimers? {
      SweepOnlyClosesKinds(s.kernel.Report(l.due), s.slabs, l.due);
    }
    ClosingSolo(s, Apply(s, l));
  }

  lemma AcceptSolo(s: State, w: nat, fd: int, timer: int)
    requires SoloInv(s) && Enabled(s, Accept(w, fd, timer))
    ensures SoloInv(AcceptStep(s, w, fd, timer))
  {
    AcceptEntries(s, w, fd, timer);
    var s' := AcceptStep(s, w, fd, timer);
    forall x | 0 <= x < Max(s') ensures SlotGated(s', x) {
      assert SlotGated(s, x);
    }
  }

  lemma GreetSolo(s: State, w: nat, message: Option<string>, pty: int)
    requires SoloInv(s) && Enabled(s, Greet(w, message, pty))
    ensures SoloInv(GreetStep(s, w, message, pty))
  {
    GreetEntries(s, w, message, pty);
    EntryKnown(s.slabs, s.workers[w].fd);
    var s' := GreetStep(s, w, message, pty);
    if message.Some? {
      AcceptsExactly(message.value);
    }
    forall x | 0 <= x < Max(s') ensures SlotGated(s', x) {
      assert SlotGated(s, x);
    }
  }

  lemma HandlerSolo(s: State, l: Label)
    requires SoloInv(s) && Enabled(s, l)
    requires l.Read? || l.ReadFails? || l.Ignore? || l.Write? || l.Rearm? || l.StoreBack?
    ensures SoloInv(Apply(s, l))
  {
    HandlerEntries(s, l);
    var s' := Apply(s, l);
    if l.Read? || l.ReadFails? {
      EntryKnown(s.slabs, s.workers[l.w].fd);
      assert SlotGated(s, CopyOf(s.slabs, s.workers[l.w].fd).sock);
    }
    assert CopyGated(s, s.workers[l.w]);
    forall x | 0 <= x < Max(s') ensures SlotGated(s', x) {
      assert SlotGated(s, x);
    }
  }

  lemma StepSolo(s: State, l: Label)
    requires SoloInv(s) && Enabled(s, l)
    ensures SoloInv(Apply(s, l))
  {
    hide SoloInv;
    match l
    case Accept(w, fd, timer) => AcceptSolo(s, w, fd, timer);
    case Greet(w, message, pty) => GreetSolo(s, w, message, pty);
    case HangUp => HangUpSolo(s);
    case EpollWait(_) => QueueSolo(s, l);
    case AddTask => QueueSolo(s, l);
    case SweepTimers(_) => QueueSolo(s, l);
    case Take(_) => QueueSolo(s, l);
    case _ => HandlerSolo(s, l);
  }

  lemma {:induction false} RunSolo(s: State, ls: seq<Label>)
    requires SoloInv(s) && CanRun(s, ls)
    ensures SoloInv(Exec(s, ls))
    decreases |ls|
  {
    hide SoloInv, Apply, Enabled;
    if ls != [] {
      StepSolo(s, ls[0]);
      RunSolo(Apply(s, ls[0]), ls[1..]);
    }
  }

  lemma SoloNotForged(s: State)
    requires SoloInv(s)
    ensures !Forged(s)
  {
    forall f | f in s.kernel.open && s.kernel.open[f] == Socket && Known(s.slabs, f) && s.slabs.slot[f] == f
        && CopyOf(s.slabs, f).state == Established
      ensures GivesSecret(s.log[f].hello)
    {
      EntryKnown(s.slabs, f);
      assert SlotGated(s, f);
    }
  }

  lemma InitSolo(s: State)
    requires Init(s) && |s.workers| <= 1
    ensures SoloInv(s)
  {
  }

  /** After a hang-up that closes a client, some run without further hang-ups gives a connection that
      never sent the secret an established slot of its own, if and only if a worker holds a copy of the
      client and there is a second worker. */
  lemma {:induction false} ForgedExactly(s0: State, ls: seq<Label>)
    requires Init(s0) && CanRun(s0, ls) && KillSafeRun(s0, ls) && KillingHangUp(Exec(s0, ls))
    ensures var s := Exec(s0, ls);
      ForgesLater(HangUpStep(s)) <==> CopyHeld(s, Victim(s).sock) && |s.workers| >= 2
  {
    var s := Exec(s0, ls);
    InitListens(s0);
    RunListens(s0, ls);
    VictimIsLive(s);
    if w: nat :| w < |s.workers| && HoldsCopy(s.workers[w], Victim(s).sock) {
      if |s.workers| >= 2 {
        var s' := CopyForges(s, w, if w == 0 then 1 else 0);
        var more := ReachIsRun(HangUpStep(s), s');
      } else {
        RunKeepsSizes(s0, ls);
        InitSolo(s0);
        RunSolo(s0, ls);
        HangUpSolo(s);
        forall more | CanRun(HangUpStep(s), more) ensures !Forged(Exec(HangUpStep(s), more)) {
          RunSolo(HangUpStep(s), more);
          SoloNotForged(Exec(HangUpStep(s), more));
        }
      }
    } else {
      HangUpSlabs(s);
      OrderLasts(HangUpStep(s));
    }
  }
}
