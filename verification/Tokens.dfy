/** One-shot event tokens: where each registered descriptor is, and why the pool never fills up. */
module Tokens {
  import opened Wrappers
  import opened Tally
  import opened RingBuffer
  import opened Server
  import opened Dispatcher
  import opened Sweeps

  /** A worker between taking descriptor f from the pool and arming it again. */
  predicate Handles(h: Handler, f: int) {
    (h.Started? || h.Writing? || h.Rearming?) && h.fd == f
  }

  function Carries(f: int): Handler -> int {
    h => if Handles(h, f) then 1 else 0
  }

  ghost function Carried(s: State, f: int): int { Sum(s.workers, Carries(f)) }

  /** How many tokens of f are in the batch, in the pool's ring, and with workers. */
  ghost function Held(s: State, f: int): int
    requires s.ring.Valid()
  {
    multiset(s.batch)[f] + multiset(s.ring.Contents())[f] + Carried(s, f)
  }

  /** A registered descriptor is in exactly one place: armed, in the batch, in the ring or with one
      worker; any other descriptor is nowhere. */
  ghost predicate TokenAt(s: State, f: int)
    requires s.ring.Valid()
  {
    Held(s, f) + (if f in s.kernel.armed then 1 else 0) == if f in s.kernel.reg then 1 else 0
  }

  ghost predicate BothRegistered(k: Kernel, t: Slabs)
    requires t.Sized()
  {
    forall a | 0 < a < |t.clients| && Live(k, t, a) :: a in k.reg && t.clients[a].pty in k.reg
  }

  /** Apart from the listener and the timer unit only clients are registered. */
  ghost predicate FixedRegistered(s: State)
    requires Shape(s)
  {
    forall f | f in s.kernel.reg && f != s.listener && f != s.timerUnit :: s.kernel.open[f] != Fixed
  }

  ghost predicate TokenInv(s: State)
    requires Shape(s)
  {
    && (forall f :: TokenAt(s, f))
    && FixedRegistered(s)
    && BothRegistered(s.kernel, s.slabs)
    && s.listener in s.kernel.reg && s.timerUnit in s.kernel.reg
    && s.ring.FlagExact()
    && multiset(s.ring.Contents())[s.timerUnit] == 0 && Carried(s, s.timerUnit) == 0
  }

  /** The step closes only descriptors that are armed, apart from the one it handles: the other end of a
      client that hangs up, and the stalled connections of the timers that a sweep gets past. */
  ghost predicate ClosesArmed(s: State, l: Label)
    requires Shape(s) && Enabled(s, l)
  {
    match l
    case HangUp => KillingHangUp(s) ==> PeerOf(s.slabs, s.batch[0]) in s.kernel.armed
    case SweepTimers(due) =>
      forall i | Reached(s.kernel, s.slabs, due, i) && Stalled(s.slabs, s.slabs.timerFor[due[i]]) ::
        s.slabs.timerFor[due[i]] in s.kernel.armed
    case _ => true
  }

  /** No hang-up kills a client of which a worker holds a copy, and no descriptor is closed while a
      token of it is outstanding. */
  ghost predicate Quiet(s: State, l: Label)
    requires Shape(s) && Enabled(s, l)
  {
    KillSafe(s, l) && ClosesArmed(s, l)
  }

  // ----- counting -----

  lemma CarriedUpdate(s: State, w: nat, h: Handler, f: int)
    requires w < |s.workers|
    ensures Sum(s.workers[w := h], Carries(f)) == Carried(s, f) - Carries(f)(s.workers[w]) + Carries(f)(h)
  {
    SumUpdate(s.workers, w, h, Carries(f));
  }

  lemma CarriedNonNegative(s: State, f: int)
    ensures Carried(s, f) >= 0
    ensures forall w | 0 <= w < |s.workers| :: Carried(s, f) >= Carries(f)(s.workers[w])
  {
    SumNonNegative(s.workers, Carries(f));
    forall w | 0 <= w < |s.workers| ensures Carried(s, f) >= Carries(f)(s.workers[w]) {
      SumAtLeast(s.workers, w, Carries(f));
    }
  }

  /** A worker's descriptor is registered and not armed. */
  lemma CarriedIsRegistered(s: State, w: nat, f: int)
    requires Shape(s) && TokenInv(s) && w < |s.workers| && Carries(f)(s.workers[w]) == 1
    ensures f in s.kernel.reg && f !in s.kernel.armed && Held(s, f) == 1
  {
    assert TokenAt(s, f);
    CarriedNonNegative(s, f);
  }

  lemma BatchIsRegistered(s: State)
    requires Shape(s) && TokenInv(s) && s.batch != []
    ensures s.batch[0] in s.kernel.reg && s.batch[0] !in s.kernel.armed && Held(s, s.batch[0]) == 1
  {
    assert TokenAt(s, s.batch[0]);
    CarriedNonNegative(s, s.batch[0]);
  }

  lemma {:induction false} DistinctCount(q: seq<int>, f: int)
    requires Distinct(q)
    ensures multiset(q)[f] == if f in q then 1 else 0
  {
    if q != [] {
      assert q == [q[0]] + q[1..];
      DistinctCount(q[1..], f);
    }
  }

  lemma PopBatch(q: seq<int>, f: int)
    requires q != []
    ensures multiset(q)[f] == multiset(q[1..])[f] + if f == q[0] then 1 else 0
  {
    assert q == [q[0]] + q[1..];
  }

  // ----- each step -----

  lemma EpollWaitToken(s: State, events: seq<int>, f: int)
    requires SlabInv(s) && TokenInv(s) && Enabled(s, EpollWait(events))
    ensures TokenAt(Apply(s, EpollWait(events)), f)
  {
    assert TokenAt(s, f);
    DistinctCount(events, f);
    CarriedNonNegative(s, f);
  }

  lemma AddTaskToken(s: State, f: int)
    requires SlabInv(s) && TokenInv(s) && Enabled(s, AddTask)
    ensures var s' := Apply(s, AddTask);
      s'.ring.Valid() && TokenAt(s', f) && s'.ring.FlagExact() && s'.ring.Contents() == s.ring.Contents() + [s.batch[0]]
  {
    assert TokenAt(s, f);
    StoreAppends(s.ring, s.batch[0]);
    PopBatch(s.batch, f);
  }

  /** The sentinel 0 is never queued. */
  lemma HeadIsTask(s: State)
    requires SlabInv(s) && TokenInv(s) && !s.ring.Empty()
    ensures s.ring.slots[s.ring.front] != 0
    ensures s.ring.Drop().Valid() && s.ring.Drop().FlagExact()
    ensures s.ring.Contents() == [s.ring.slots[s.ring.front]] + s.ring.Drop().Contents()
  {
    DropTakesHead(s.ring);
    assert TokenAt(s, 0);
    CarriedNonNegative(s, 0);
    PopBatch(s.ring.Contents(), 0);
  }

  lemma TakeToken(s: State, w: nat, f: int)
    requires SlabInv(s) && TokenInv(s) && Enabled(s, Take(w))
    ensures Apply(s, Take(w)).ring.Valid() && TokenAt(Apply(s, Take(w)), f)
  {
    hide TablesOk, HandlerOk;
    var fd := s.ring.slots[s.ring.front];
    HeadIsTask(s);
    assert TokenAt(s, f);
    PopBatch(s.ring.Contents(), f);
    CarriedUpdate(s, w, Started(fd), f);
  }

  lemma AcceptToken(s: State, w: nat, fd: int, timer: int, f: int)
    requires SlabInv(s) && TokenInv(s) && Enabled(s, Accept(w, fd, timer))
    ensures TokenAt(AcceptStep(s, w, fd, timer), f)
  {
    assert TokenAt(s, f);
    CarriedUpdate(s, w, Idle, f);
    CarriedNonNegative(s, f);
    CarriedIsRegistered(s, w, s.listener);
  }

  lemma GreetToken(s: State, w: nat, message: Option<string>, pty: int, f: int)
    requires SlabInv(s) && TokenInv(s) && Enabled(s, Greet(w, message, pty))
    ensures TokenAt(GreetStep(s, w, message, pty), f)
  {
    var fd := s.workers[w].fd;
    assert Paired(s.kernel, s.slabs, fd);
    CopyIsOwnSlot(s.kernel, s.slabs, s.log, fd);
    assert TokenAt(s, f);
    CarriedUpdate(s, w, Idle, f);
    CarriedNonNegative(s, f);
    CarriedIsRegistered(s, w, fd);
  }

  lemma HandleTimersOnlyCloses(k: Kernel, t: Slabs, log: seq<Stream>, due: seq<int>)
    requires TablesOk(k, t, log) && Due(k, t, due)
    ensures var k' := HandleTimers(k, t, due).0;
      && k'.InRange(|t.clients|)
      && (forall f :: f in k'.open ==>
            && f in k.open && k'.open[f] == k.open[f]
            && (f in k'.reg <==> f in k.reg) && (f in k'.armed <==> f in k.armed)
            && (f in k'.timers <==> f in k.timers) && (f in k'.timersArmed <==> f in k.timersArmed && f !in due))
  {
    SweepOnlyCloses(k.Report(due), t, due);
    SweepOnlyClosesKinds(k.Report(due), t, due);
  }

  lemma HandleTimersKeepsFixed(k: Kernel, t: Slabs, log: seq<Stream>, due: seq<int>, fd: int)
    requires TablesOk(k, t, log) && Due(k, t, due) && fd in k.open && k.open[fd] == Fixed
    ensures var k' := HandleTimers(k, t, due).0; fd in k'.open && k'.open[fd] == Fixed && (fd in k.reg ==> fd in k'.reg)
  {
    ReportKeepsTables(k, t, log, due);
    SweepKeepsFixed(k.Report(due), t, log, due, fd);
  }

  /** A registered descriptor that a sweep closes is a connection it got past. */
  lemma SweptIsTarget(k: Kernel, t: Slabs, log: seq<Stream>, due: seq<int>, f: int)
    requires TablesOk(k, t, log) && Due(k, t, due) && f in k.reg
    ensures f !in HandleTimers(k, t, due).0.open
       <==> exists i :: Reached(k, t, due, i) && Stalled(t, t.timerFor[due[i]]) && t.timerFor[due[i]] == f
  {
    var k0 := k.Report(due);
    ReportKeepsTables(k, t, log, due);
    SweepClosesExactly(k0, t, log, due, f);
    assert forall i :: Reached(k0, t, due, i) <==> Reached(k, t, due, i);
    assert Owned(k, t, log, f);
    forall i | 0 <= i < |due| && Target(t, due, i, f) ensures t.timerFor[due[i]] == f && Stalled(t, f) {
      assert due[i] in k.timers;
    }
    if i :| Reached(k, t, due, i) && Stalled(t, t.timerFor[due[i]]) && t.timerFor[due[i]] == f {
      assert Reached(k0, t, due, i) && Target(t, due, i, f);
    }
  }

  lemma DueTimers(s: State, due: seq<int>)
    requires SlabInv(s) && Enabled(s, SweepTimers(due))
    ensures Due(s.kernel, s.slabs, due)
  {
  }

  /** The token of descriptor f survives a sweep exactly if the sweep does not close f or f is armed. */
  lemma SweepToken(s: State, due: seq<int>, f: int)
    requires SlabInv(s) && TokenInv(s) && Enabled(s, SweepTimers(due))
    ensures TokenAt(SweepStep(s, due), f) <==>
      (f in s.kernel.reg && f !in HandleTimers(s.kernel, s.slabs, due).0.open ==> f in s.kernel.armed)
  {
    var s' := SweepStep(s, due);
    DueTimers(s, due);
    HandleTimersOnlyCloses(s.kernel, s.slabs, s.log, due);
    HandleTimersKeepsFixed(s.kernel, s.slabs, s.log, due, s.timerUnit);
    BatchIsRegistered(s);
    assert TokenAt(s, f);
    PopBatch(s.batch, f);
  }

  lemma SweepTokens(s: State, due: seq<int>)
    requires SlabInv(s) && TokenInv(s) && Enabled(s, SweepTimers(due))
    ensures (forall f :: TokenAt(SweepStep(s, due), f)) <==> ClosesArmed(s, SweepTimers(due))
  {
    DueTimers(s, due);
    forall f | f in s.kernel.reg
      ensures f !in HandleTimers(s.kernel, s.slabs, due).0.open
         <==> exists i :: Reached(s.kernel, s.slabs, due, i) && Stalled(s.slabs, s.slabs.timerFor[due[i]])
                && s.slabs.timerFor[due[i]] == f
    {
      SweptIsTarget(s.kernel, s.slabs, s.log, due, f);
    }
    forall f ensures TokenAt(SweepStep(s, due), f) <==>
        (f in s.kernel.reg && f !in HandleTimers(s.kernel, s.slabs, due).0.open ==> f in s.kernel.armed)
    {
      SweepToken(s, due, f);
    }
    forall i | Reached(s.kernel, s.slabs, due, i) && Stalled(s.slabs, s.slabs.timerFor[due[i]])
      ensures s.slabs.timerFor[due[i]] in s.kernel.reg
    {
      assert due[..i + 1][i] == due[i];
    }
  }

  /** Whatever of a client's is registered has its entry. */
  lemma RegisteredIsKnown(s: State, fd: int)
    requires SlabInv(s) && TokenInv(s) && fd in s.kernel.reg && fd != s.listener && fd != s.timerUnit
    ensures 0 < fd < Max(s) && s.slabs.slot[fd] != NONE && Known(s.slabs, fd)
  {
    assert Owned(s.kernel, s.slabs, s.log, fd);
    assert Paired(s.kernel, s.slabs, fd);
  }

  lemma StartedIsKnown(s: State, w: nat)
    requires SlabInv(s) && TokenInv(s) && w < |s.workers| && s.workers[w].Started? && s.workers[w].fd != s.listener
    ensures Known(s.slabs, s.workers[w].fd)
  {
    var fd := s.workers[w].fd;
    assert Handles(s.workers[w], fd);
    CarriedIsRegistered(s, w, fd);
    CarriedNonNegative(s, s.timerUnit);
    RegisteredIsKnown(s, fd);
  }

  /** What a hang-up does to the kernel: it closes both ends of the client, or unregisters one whose
      PTY does not exist yet. */
  lemma HangUpCloses(s: State)
    requires SlabInv(s) && TokenInv(s) && Enabled(s, HangUp)
    ensures var fd, k, k' := s.batch[0], s.kernel, HangUpStep(s).kernel;
      && 0 < fd < Max(s) && Known(s.slabs, fd)
      && if KillingHangUp(s) then
           PeerOf(s.slabs, fd) != fd && PeerOf(s.slabs, fd) in k.reg
           && k'.reg == k.reg - {fd, PeerOf(s.slabs, fd)} && k'.armed == k.armed - {fd, PeerOf(s.slabs, fd)}
         else k'.reg == k.reg - {fd} && k'.armed == k.armed - {fd}
  {
    hide HandlerOk, TokenAt;
    var fd := s.batch[0];
    BatchIsRegistered(s);
    RegisteredIsKnown(s, fd);
    assert Paired(s.kernel, s.slabs, fd);
  }

  /** A hang-up takes the client's own token out; that of the other end must not be out as well. */
  lemma HangUpToken(s: State, f: int)
    requires SlabInv(s) && TokenInv(s) && Enabled(s, HangUp)
    ensures TokenAt(HangUpStep(s), f) <==>
      (KillingHangUp(s) && f == PeerOf(s.slabs, s.batch[0]) ==> f in s.kernel.armed)
  {
    hide TablesOk, HandlerOk, KillingHangUp, KillTables;
    HangUpCloses(s);
    BatchIsRegistered(s);
    assert TokenAt(s, f);
    PopBatch(s.batch, f);
  }

  lemma RearmToken(s: State, w: nat, f: int)
    requires SlabInv(s) && TokenInv(s) && Enabled(s, Rearm(w))
    ensures Apply(s, Rearm(w)).ring == s.ring && TokenAt(Apply(s, Rearm(w)), f)
  {
    hide TablesOk, HandlerOk;
    var fd := s.workers[w].fd;
    assert TokenAt(s, f);
    CarriedUpdate(s, w, Storing(s.workers[w].copy), f);
    CarriedIsRegistered(s, w, fd);
  }

  /** Between taking a descriptor and arming it, and after, a handler keeps what it carries. */
  lemma HandlerCarries(s: State, l: Label, f: int)
    requires Shape(s) && Enabled(s, l) && (l.Read? || l.ReadFails? || l.Write? || l.StoreBack?)
    ensures var s' := Apply(s, l);
      && s'.ring == s.ring && s'.batch == s.batch && s'.kernel == s.kernel
      && l.w < |s.workers| == |s'.workers| && s'.workers == s.workers[l.w := s'.workers[l.w]]
      && Carries(f)(s'.workers[l.w]) == Carries(f)(s.workers[l.w])
  {
  }

  lemma HandlerToken(s: State, l: Label, f: int)
    requires SlabInv(s) && TokenInv(s) && Enabled(s, l) && (l.Read? || l.ReadFails? || l.Write? || l.StoreBack?)
    ensures Apply(s, l).ring == s.ring && TokenAt(Apply(s, l), f)
  {
    hide TablesOk, HandlerOk, Apply, Enabled;
    HandlerCarries(s, l, f);
    assert TokenAt(s, f);
    CarriedUpdate(s, l.w, Apply(s, l).workers[l.w], f);
  }

  /** A step keeps every token in exactly one place if and only if it closes armed descriptors only. */
  lemma StepTokens(s: State, l: Label)
    requires SlabInv(s) && TokenInv(s) && Enabled(s, l)
    ensures Apply(s, l).ring.Valid()
    ensures (forall f :: TokenAt(Apply(s, l), f)) <==> ClosesArmed(s, l)
  {
    hide TokenAt, TablesOk, HandlerOk;
    if l.SweepTimers? {
      SweepTokens(s, l.due);
    } else if l.HangUp? {
      forall f ensures TokenAt(HangUpStep(s), f) <==>
          (KillingHangUp(s) && f == PeerOf(s.slabs, s.batch[0]) ==> f in s.kernel.armed)
      {
        HangUpToken(s, f);
      }
    } else {
      forall f ensures Apply(s, l).ring.Valid() && TokenAt(Apply(s, l), f) {
        OpenStepToken(s, l, f);
      }
    }
  }

  /** Steps other than sweeps and hang-ups close at most what they handle. */
  lemma OpenStepToken(s: State, l: Label, f: int)
    requires SlabInv(s) && TokenInv(s) && Enabled(s, l) && !l.SweepTimers? && !l.HangUp?
    ensures Apply(s, l).ring.Valid() && TokenAt(Apply(s, l), f)
  {
    hide TokenAt, TablesOk, HandlerOk;
    match l
    case EpollWait(events) => EpollWaitToken(s, events, f);
    case AddTask => AddTaskToken(s, f);
    case Take(w) => TakeToken(s, w, f);
    case Accept(w, fd, timer) => AcceptToken(s, w, fd, timer, f);
    case Greet(w, message, pty) => GreetToken(s, w, message, pty, f);
    case Ignore(w) => StartedIsKnown(s, w);
    case Rearm(w) => RearmToken(s, w, f);
    case _ => HandlerToken(s, l, f);
  }

  // ----- the rest of the invariant -----

  lemma SweepRegistered(s: State, due: seq<int>)
    requires SlabInv(s) && TokenInv(s) && Enabled(s, SweepTimers(due))
    ensures BothRegistered(SweepStep(s, due).kernel, s.slabs)
    ensures s.listener in SweepStep(s, due).kernel.reg && s.timerUnit in SweepStep(s, due).kernel.reg
  {
    DueTimers(s, due);
    HandleTimersOnlyCloses(s.kernel, s.slabs, s.log, due);
    HandleTimersKeepsFixed(s.kernel, s.slabs, s.log, due, s.listener);
    HandleTimersKeepsFixed(s.kernel, s.slabs, s.log, due, s.timerUnit);
    var k' := SweepStep(s, due).kernel;
    forall a | 0 < a < |s.slabs.clients| && Live(k', s.slabs, a)
      ensures a in k'.reg && s.slabs.clients[a].pty in k'.reg
    {
      assert Live(s.kernel, s.slabs, a);
    }
  }

  lemma HangUpRegistered(s: State)
    requires SlabInv(s) && TokenInv(s) && Enabled(s, HangUp)
    ensures var s' := HangUpStep(s);
      BothRegistered(s'.kernel, s'.slabs) && s.listener in s'.kernel.reg && s.timerUnit in s'.kernel.reg
  {
    hide TokenAt, HandlerOk;
    var s' := HangUpStep(s);
    var fd := s.batch[0];
    assert Paired(s.kernel, s.slabs, fd);
    assert Owned(s.kernel, s.slabs, s.log, s.listener) && Owned(s.kernel, s.slabs, s.log, s.timerUnit);
    forall b | 0 < b < |s'.slabs.clients| && Live(s'.kernel, s'.slabs, b)
      ensures b in s'.kernel.reg && s'.slabs.clients[b].pty in s'.kernel.reg
    {
      assert Live(s.kernel, s.slabs, b);
      assert Paired(s.kernel, s.slabs, b);
    }
  }

  lemma GreetRegistered(s: State, w: nat, message: Option<string>, pty: int)
    requires SlabInv(s) && TokenInv(s) && Enabled(s, Greet(w, message, pty))
    ensures var s' := GreetStep(s, w, message, pty);
      BothRegistered(s'.kernel, s'.slabs) && s.listener in s'.kernel.reg && s.timerUnit in s'.kernel.reg
  {
    var s' := GreetStep(s, w, message, pty);
    var fd := s.workers[w].fd;
    assert Paired(s.kernel, s.slabs, fd);
    CopyIsOwnSlot(s.kernel, s.slabs, s.log, fd);
    CarriedIsRegistered(s, w, fd);
    assert Owned(s.kernel, s.slabs, s.log, s.listener) && Owned(s.kernel, s.slabs, s.log, s.timerUnit);
    forall b | 0 < b < |s'.slabs.clients| && Live(s'.kernel, s'.slabs, b)
      ensures b in s'.kernel.reg && s'.slabs.clients[b].pty in s'.kernel.reg
    {
      assert b != fd ==> Live(s.kernel, s.slabs, b);
    }
  }

  lemma AcceptRegistered(s: State, w: nat, fd: int, timer: int)
    requires SlabInv(s) && TokenInv(s) && Enabled(s, Accept(w, fd, timer))
    ensures var s' := AcceptStep(s, w, fd, timer);
      BothRegistered(s'.kernel, s'.slabs) && s.listener in s'.kernel.reg && s.timerUnit in s'.kernel.reg
  {
    var s' := AcceptStep(s, w, fd, timer);
    forall b | 0 < b < |s'.slabs.clients| && Live(s'.kernel, s'.slabs, b)
      ensures b in s'.kernel.reg && s'.slabs.clients[b].pty in s'.kernel.reg
    {
      var p := s.slabs.clients[b].pty;
      assert Paired(s.kernel, s.slabs, b) && Paired(s.kernel, s.slabs, p);
      assert Live(s.kernel, s.slabs, b);
    }
  }

  lemma StepRegistered(s: State, l: Label)
    requires SlabInv(s) && TokenInv(s) && Enabled(s, l)
    ensures var s' := Apply(s, l);
      && s'.slabs.Sized() && BothRegistered(s'.kernel, s'.slabs)
      && s'.listener in s'.kernel.reg && s'.timerUnit in s'.kernel.reg
  {
    hide TokenAt, TablesOk, HandlerOk, BothRegistered, KillTables, AcceptTables, GreetTables, HandleTimers;
    StepShape(s, l);
    match l
    case SweepTimers(due) => SweepRegistered(s, due);
    case HangUp => HangUpRegistered(s);
    case Accept(w, fd, timer) => AcceptRegistered(s, w, fd, timer);
    case Greet(w, message, pty) => GreetRegistered(s, w, message, pty);
    case _ => OthersRegistered(s, l);
  }

  lemma OthersRegistered(s: State, l: Label)
    requires SlabInv(s) && TokenInv(s) && Enabled(s, l)
    requires !l.SweepTimers? && !l.HangUp? && !l.Accept? && !l.Greet?
    ensures var s' := Apply(s, l);
      && s'.slabs.Sized() && BothRegistered(s'.kernel, s'.slabs)
      && s'.listener in s'.kernel.reg && s'.timerUnit in s'.kernel.reg
  {
    hide TokenAt, TablesOk, HandlerOk, Apply, Enabled, BothRegistered;
    OthersKeepTables(s, l);
    SameRegistered(s, Apply(s, l));
  }

  lemma OthersKeepTables(s: State, l: Label)
    requires SlabInv(s) && Enabled(s, l) && !l.SweepTimers? && !l.HangUp? && !l.Accept? && !l.Greet?
    ensures var s' := Apply(s, l);
      && s'.slabs == s.slabs && s'.kernel.open == s.kernel.open && s'.kernel.reg == s.kernel.reg
      && s'.listener == s.listener && s'.timerUnit == s.timerUnit
  {
    hide TablesOk, HandlerOk;
    match l
    case Write(w) => WriteSlabs(s, w);
    case StoreBack(w) => StoreBackSlabs(s, w);
    case _ =>
  }

  lemma SameRegistered(s: State, s': State)
    requires Shape(s) && BothRegistered(s.kernel, s.slabs)
    requires s'.slabs == s.slabs && s'.kernel.open == s.kernel.open && s'.kernel.reg == s.kernel.reg
    ensures BothRegistered(s'.kernel, s'.slabs)
  {
    forall a | 0 < a < |s.slabs.clients| && Live(s'.kernel, s.slabs, a)
      ensures a in s.kernel.reg && s.slabs.clients[a].pty in s.kernel.reg
    {
      assert Live(s.kernel, s.slabs, a);
    }
  }

  /** A handler's step keeps the descriptor it handles, or lets it go. */
  lemma HandlerStepKeeps(s: State, l: Label)
    requires Shape(s) && Enabled(s, l)
    requires !l.EpollWait? && !l.AddTask? && !l.SweepTimers? && !l.HangUp? && !l.Take?
    ensures var s' := Apply(s, l);
      && s'.ring == s.ring && l.w < |s.workers| == |s'.workers| && s'.workers == s.workers[l.w := s'.workers[l.w]]
      && forall f :: Handles(s'.workers[l.w], f) ==> Handles(s.workers[l.w], f)
  {
  }

  lemma TakeTimerUnit(s: State, w: nat)
    requires SlabInv(s) && TokenInv(s) && Enabled(s, Take(w))
    ensures var s' := Apply(s, Take(w));
      && s'.ring.Valid() && s'.ring.FlagExact()
      && multiset(s'.ring.Contents())[s.timerUnit] == 0 && Carried(s', s.timerUnit) == 0
  {
    hide TablesOk, HandlerOk, TokenAt;
    HeadIsTask(s);
    PopBatch(s.ring.Contents(), s.timerUnit);
    CarriedUpdate(s, w, Started(s.ring.slots[s.ring.front]), s.timerUnit);
  }

  lemma HandlerTimerUnit(s: State, l: Label)
    requires SlabInv(s) && TokenInv(s) && Enabled(s, l)
    requires !l.EpollWait? && !l.AddTask? && !l.SweepTimers? && !l.HangUp? && !l.Take?
    ensures Apply(s, l).ring == s.ring && Carried(Apply(s, l), s.timerUnit) == 0
  {
    hide Apply, Enabled, TablesOk, HandlerOk, TokenAt;
    HandlerStepKeeps(s, l);
    CarriedNonNegative(s, s.timerUnit);
    CarriedUpdate(s, l.w, Apply(s, l).workers[l.w], s.timerUnit);
  }

  /** The timer unit's token never goes through the pool. */
  lemma StepTimerUnit(s: State, l: Label)
    requires SlabInv(s) && TokenInv(s) && Enabled(s, l)
    ensures var s' := Apply(s, l);
      && s'.ring.Valid() && s'.ring.FlagExact()
      && multiset(s'.ring.Contents())[s.timerUnit] == 0 && Carried(s', s.timerUnit) == 0
  {
    hide TablesOk, HandlerOk, TokenAt;
    match l
    case AddTask => AddTaskToken(s, s.timerUnit);
    case Take(w) => TakeTimerUnit(s, w);
    case EpollWait(_) =>
    case SweepTimers(_) =>
    case HangUp =>
    case _ => HandlerTimerUnit(s, l);
  }

  lemma StepFixed(s: State, l: Label)
    requires SlabInv(s) && FixedRegistered(s) && Enabled(s, l) && Shape(Apply(s, l))
    ensures FixedRegistered(Apply(s, l))
  {
    match l
    case SweepTimers(due) =>
      DueTimers(s, due);
      HandleTimersOnlyCloses(s.kernel, s.slabs, s.log, due);
      HandleTimersKeepsFixed(s.kernel, s.slabs, s.log, due, s.timerUnit);
    case HangUp => assert Paired(s.kernel, s.slabs, s.batch[0]);
    case Greet(w, _, _) => assert Paired(s.kernel, s.slabs, s.workers[w].fd);
    case _ =>
  }

  /** A step that kills no client with a copy out keeps every registered descriptor in exactly one
      place, and the rest of the invariant, if and only if what it closes is armed before the step. */
  lemma QuietExactly(s: State, l: Label)
    requires SlabInv(s) && TokenInv(s) && Enabled(s, l) && KillSafe(s, l)
    ensures SlabInv(Apply(s, l))
    ensures TokenInv(Apply(s, l)) <==> ClosesArmed(s, l)
  {
    hide TokenAt, TablesOk, HandlerOk, ClosesArmed;
    StepSlabs(s, l);
    StepTokens(s, l);
    StepRegistered(s, l);
    StepFixed(s, l);
    StepTimerUnit(s, l);
  }
}
