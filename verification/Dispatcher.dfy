/** The dispatcher as a step system: the event loop, the timer sweep and any number of workers. */
module Dispatcher {
  import opened Wrappers
  import opened RingBuffer
  import opened Handshake
  import opened Server

  const MAX_EVENTS := 500
  const CHUNK := 4096

  /** What went through a descriptor since it was opened: the handshake message, the bytes read for
      relaying, and all bytes written. */
  datatype Stream = Stream(hello: Option<string>, input: string, output: string)

  /** A worker in process_task; `copy` is its copy of the client, `at` the slot it points to. */
  datatype Handler =
    | Idle
    | Started(fd: int)
    | Writing(fd: int, at: int, to: int, chunk: string, copy: Client)
    | Rearming(fd: int, copy: Client)
    | Storing(copy: Client)

  datatype State = State(
    kernel: Kernel, slabs: Slabs, log: seq<Stream>, batch: seq<int>, ring: Ring,
    workers: seq<Handler>, listener: int, timerUnit: int)

  /** `ReadFails` is transfer_data returning on a read error; `Ignore` is process_task on a descriptor
      without a client, whose uninitialised state and number are taken to name no case and no slot;
      `SweepTimers([])` is a failed wait for timers. */
  datatype Label =
    | EpollWait(events: seq<int>)
    | AddTask
    | SweepTimers(due: seq<int>)
    | HangUp
    | Take(w: nat)
    | Accept(w: nat, fd: int, timer: int)
    | Greet(w: nat, message: Option<string>, pty: int)
    | Read(w: nat, chunk: string)
    | ReadFails(w: nat)
    | Ignore(w: nat)
    | Write(w: nat)
    | Rearm(w: nat)
    | StoreBack(w: nat)

  // ----- well-formedness -----

  function Max(s: State): nat { |s.slabs.clients| }

  predicate CopyInRange(c: Client, max: nat) { 0 <= c.sock < max && c.pty < max }

  predicate HandlerInRange(h: Handler, max: nat) {
    match h
    case Writing(_, at, to, _, copy) => CopyInRange(copy, max) && 0 <= at < max && 0 <= to < max
    case Rearming(_, copy) => CopyInRange(copy, max)
    case Storing(copy) => CopyInRange(copy, max)
    case _ => true
  }

  ghost predicate Shape(s: State) {
    && s.slabs.Sized() && TimersInRange(s.slabs) && s.kernel.InRange(Max(s)) && |s.log| == Max(s)
    && s.ring.Valid()
    && forall w | 0 <= w < |s.workers| :: HandlerInRange(s.workers[w], Max(s))
  }

  // ----- steps -----

  predicate Fresh(s: State, fd: int) { 0 < fd < Max(s) && fd !in s.kernel.open }

  /** client_ptr_slab leads from fd to a client, and that client's own slot can be copied. */
  predicate Known(t: Slabs, fd: int) {
    && 0 <= fd < |t.slot| && t.slot[fd] != NONE
    && 0 <= t.slot[fd] < |t.clients| && 0 <= t.clients[t.slot[fd]].sock < |t.clients|
    && CopyInRange(t.clients[t.clients[t.slot[fd]].sock], |t.clients|)
  }

  function CopyOf(t: Slabs, fd: int): Client
    requires Known(t, fd)
  {
    t.clients[t.clients[t.slot[fd]].sock]
  }

  /** Where transfer_data sends what it read from fd. */
  function PeerOf(t: Slabs, fd: int): int
    requires 0 <= fd < |t.slot| && 0 <= t.slot[fd] < |t.clients|
  {
    var c := t.clients[t.slot[fd]];
    if fd == c.pty then c.sock else c.pty
  }

  predicate Is(s: State, w: nat, h: Handler) { w < |s.workers| && s.workers[w] == h }

  ghost predicate Distinct(q: seq<int>) {
    forall i, j | 0 <= i < j < |q| :: q[i] != q[j]
  }

  /** A task started on a known client other than the listener, in the given state. */
  predicate StartedOn(s: State, w: nat, state: ClientState) {
    && w < |s.workers| && s.workers[w].Started? && s.workers[w].fd != s.listener
    && Known(s.slabs, s.workers[w].fd) && CopyOf(s.slabs, s.workers[w].fd).state == state
  }

  ghost predicate Enabled(s: State, l: Label) {
    match l
    case EpollWait(events) =>
      && s.batch == [] && 0 < |events| <= MAX_EVENTS && Distinct(events)
      && forall i | 0 <= i < |events| :: events[i] in s.kernel.armed
    case AddTask => s.batch != [] && s.batch[0] != s.timerUnit && s.ring.fullFlag <= 0
    case SweepTimers(due) =>
      && s.batch != [] && s.batch[0] == s.timerUnit && |due| <= MAX_EVENTS && Distinct(due)
      && forall i | 0 <= i < |due| :: due[i] in s.kernel.timersArmed
    case HangUp =>
      s.batch != [] && 0 <= s.batch[0] < Max(s) && s.batch[0] != s.listener && s.batch[0] != s.timerUnit
    case Take(w) => Is(s, w, Idle) && !s.ring.Empty()
    case Accept(w, fd, timer) => Is(s, w, Started(s.listener)) && Fresh(s, fd) && Fresh(s, timer) && fd != timer
    case Greet(w, message, pty) =>
      && StartedOn(s, w, New) && Fresh(s, pty)
      && (message.Some? ==> |message.value| <= INPUT_SIZE)
      && (Accepts(message) ==>
            var sock := CopyOf(s.slabs, s.workers[w].fd).sock;
            sock in s.kernel.open && s.kernel.open[sock] == Socket)
    case Read(w, chunk) =>
      && StartedOn(s, w, Established) && 0 < |chunk| <= CHUNK
      && s.workers[w].fd in s.kernel.open && 0 <= PeerOf(s.slabs, s.workers[w].fd) < Max(s)
    case ReadFails(w) => StartedOn(s, w, Established)
    case Ignore(w) =>
      w < |s.workers| && s.workers[w].Started? && s.workers[w].fd != s.listener && !Known(s.slabs, s.workers[w].fd)
    case Write(w) => w < |s.workers| && s.workers[w].Writing?
    case Rearm(w) => w < |s.workers| && s.workers[w].Rearming?
    case StoreBack(w) => w < |s.workers| && s.workers[w].Storing?
  }

  function Received(log: seq<Stream>, fd: int, chunk: string): seq<Stream>
    requires 0 <= fd < |log|
  {
    log[fd := log[fd].(input := log[fd].input + chunk)]
  }

  function Sent(log: seq<Stream>, fd: int, bytes: string): seq<Stream>
    requires 0 <= fd < |log|
  {
    log[fd := log[fd].(output := log[fd].output + bytes)]
  }

  function AcceptStep(s: State, w: nat, fd: int, timer: int): State
    requires Shape(s) && Enabled(s, Accept(w, fd, timer))
  {
    var (k, t) := AcceptTables(s.kernel, s.slabs, fd, timer);
    s.(kernel := k.Rearm(s.listener), slabs := t, log := s.log[fd := Stream(None, "", REMBASH)],
       workers := s.workers[w := Idle])
  }

  function GreetLog(s: State, c: Client, message: Option<string>, pty: int): seq<Stream>
    requires Shape(s) && 0 <= c.sock < Max(s) && 0 < pty < Max(s)
    requires message.Some? ==> |message.value| <= INPUT_SIZE
  {
    if Accepts(message) then
      Sent(s.log, c.sock, OK)[c.sock := Sent(s.log, c.sock, OK)[c.sock].(hello := message)][pty := Stream(None, "", "")]
    else if c.sock in s.kernel.open && s.kernel.open[c.sock] == Socket then
      Sent(s.log, c.sock, Refusal(message))
    else
      s.log
  }

  function GreetStep(s: State, w: nat, message: Option<string>, pty: int): State
    requires Shape(s) && Enabled(s, Greet(w, message, pty))
  {
    var fd := s.workers[w].fd;
    var c := CopyOf(s.slabs, fd);
    var (k, t) := GreetTables(s.kernel, s.slabs, fd, c, Accepts(message), pty);
    s.(kernel := k, slabs := t, log := GreetLog(s, c, message, pty), workers := s.workers[w := Idle])
  }

  function HangUpStep(s: State): State
    requires Shape(s) && Enabled(s, HangUp)
  {
    var (k, t) := KillTables(s.kernel, s.slabs, s.batch[0]);
    s.(kernel := k, slabs := t, batch := s.batch[1..])
  }

  function SweepStep(s: State, due: seq<int>): State
    requires Shape(s) && Enabled(s, SweepTimers(due))
  {
    s.(kernel := HandleTimers(s.kernel, s.slabs, due).0.Rearm(s.timerUnit), batch := s.batch[1..])
  }

  function WriteStep(s: State, w: nat): State
    requires Shape(s) && Enabled(s, Write(w))
  {
    var Writing(fd, at, to, chunk, copy) := s.workers[w];
    s.(log := Sent(s.log, to, chunk),
       slabs := s.slabs.(clients := s.slabs.clients[at := s.slabs.clients[at].(state := Established)]),
       workers := s.workers[w := Rearming(fd, copy)])
  }

  ghost function Apply(s: State, l: Label): State
    requires Shape(s) && Enabled(s, l)
  {
    match l
    case EpollWait(events) =>
      s.(batch := events, kernel := s.kernel.(armed := s.kernel.armed - (set f | f in events)))
    case AddTask => s.(batch := s.batch[1..], ring := s.ring.Store(s.batch[0]))
    case SweepTimers(due) => SweepStep(s, due)
    case HangUp => HangUpStep(s)
    case Take(w) =>
      var fd := s.ring.slots[s.ring.front];
      s.(ring := s.ring.Drop(), workers := s.workers[w := if fd != 0 then Started(fd) else Idle])
    case Accept(w, fd, timer) => AcceptStep(s, w, fd, timer)
    case Greet(w, message, pty) => GreetStep(s, w, message, pty)
    case Read(w, chunk) =>
      var fd := s.workers[w].fd;
      s.(log := Received(s.log, fd, chunk),
         workers := s.workers[w := Writing(fd, s.slabs.slot[fd], PeerOf(s.slabs, fd), chunk, CopyOf(s.slabs, fd))])
    case ReadFails(w) =>
      var fd := s.workers[w].fd;
      s.(workers := s.workers[w := Rearming(fd, CopyOf(s.slabs, fd))])
    case Ignore(w) => s.(workers := s.workers[w := Idle])
    case Write(w) => WriteStep(s, w)
    case Rearm(w) =>
      var Rearming(fd, copy) := s.workers[w];
      s.(kernel := s.kernel.Rearm(fd), workers := s.workers[w := Storing(copy)])
    case StoreBack(w) =>
      s.(slabs := StoreClient(s.slabs, s.workers[w].copy), workers := s.workers[w := Idle])
  }

  // ----- every step keeps the model in range -----

  lemma {:induction false} SweepShape(k: Kernel, t: Slabs, due: seq<int>)
    requires t.Sized() && TimersInRange(t) && k.InRange(|t.clients|)
    requires forall i | 0 <= i < |due| :: 0 <= due[i] < |t.timerFor|
    ensures Sweep(k, t, due).0.InRange(|t.clients|)
    decreases |due|
  {
    if due != [] {
      var fd := t.timerFor[due[0]];
      var k1 := if Stalled(t, fd) then k.Unregister(fd).Close(fd) else k;
      if !(Stalled(t, fd) && fd !in k.reg) && due[0] in k1.timers {
        SweepShape(k1.Close(due[0]), t, due[1..]);
      }
    }
  }

  lemma AcceptShape(s: State, w: nat, fd: int, timer: int)
    requires Shape(s) && Enabled(s, Accept(w, fd, timer))
    ensures Shape(AcceptStep(s, w, fd, timer))
  {
  }

  lemma StoreShape(t: Slabs, c: Client)
    requires t.Sized() && TimersInRange(t) && 0 <= c.sock < |t.clients| && c.pty < |t.clients|
    ensures StoreClient(t, c).Sized() && TimersInRange(StoreClient(t, c)) && |StoreClient(t, c).clients| == |t.clients|
  {
  }

  lemma GreetShape(s: State, w: nat, message: Option<string>, pty: int)
    requires Shape(s) && Enabled(s, Greet(w, message, pty))
    ensures Shape(GreetStep(s, w, message, pty))
  {
    hide StoreClient;
    var c := CopyOf(s.slabs, s.workers[w].fd);
    StoreShape(s.slabs, c);
    StoreShape(s.slabs, Client(c.sock, pty, Established));
    assert GreetStep(s, w, message, pty).kernel.InRange(Max(s));
  }

  lemma HangUpShape(s: State)
    requires Shape(s) && Enabled(s, HangUp)
    ensures Shape(HangUpStep(s))
  {
  }

  lemma QueueShape(s: State, l: Label)
    requires Shape(s) && Enabled(s, l) && (l.EpollWait? || l.AddTask? || l.SweepTimers? || l.Take?)
    ensures Shape(Apply(s, l))
  {
    if l.SweepTimers? {
      SweepShape(s.kernel.Report(l.due), s.slabs, l.due);
    }
  }

  lemma RelayShape(s: State, l: Label)
    requires Shape(s) && Enabled(s, l)
    requires l.Read? || l.ReadFails? || l.Ignore? || l.Write? || l.Rearm? || l.StoreBack?
    ensures Shape(Apply(s, l))
  {
    hide StoreClient;
    if l.StoreBack? {
      StoreShape(s.slabs, s.workers[l.w].copy);
    }
  }

  lemma StepShape(s: State, l: Label)
    requires Shape(s) && Enabled(s, l)
    ensures Shape(Apply(s, l))
  {
    hide AcceptStep, GreetStep, HangUpStep, SweepStep, WriteStep;
    match l
    case Accept(w, fd, timer) => AcceptShape(s, w, fd, timer);
    case Greet(w, message, pty) => GreetShape(s, w, message, pty);
    case HangUp => HangUpShape(s);
    case EpollWait(_) => QueueShape(s, l);
    case AddTask => QueueShape(s, l);
    case SweepTimers(_) => QueueShape(s, l);
    case Take(_) => QueueShape(s, l);
    case _ => RelayShape(s, l);
  }

  lemma StepKeepsSizes(s: State, l: Label)
    requires Shape(s) && Enabled(s, l)
    ensures var s' := Apply(s, l);
      && Max(s') == Max(s) && s'.ring.Size() == s.ring.Size() && |s'.workers| == |s.workers|
      && s'.listener == s.listener && s'.timerUnit == s.timerUnit
  {

  }

  // ----- the slabs' invariant -----

  /** Slot a of a client whose connection and PTY are both open. */
  ghost predicate Live(k: Kernel, t: Slabs, a: int)
    requires t.Sized()
  {
    && 0 < a < |t.clients| && t.clients[a].sock == a && t.clients[a].state == Established
    && var p := t.clients[a].pty;
    && 0 < p < |t.clients| && p != a && t.slot[a] == a && t.slot[p] == a
    && a in k.open && k.open[a] == Socket && p in k.open && k.open[p] == Pty
  }

  /** A non-null entry at f leads to a slot that is its own socket's, and f is that slot's socket or PTY. */
  ghost predicate Paired(k: Kernel, t: Slabs, f: int)
    requires t.Sized() && 0 <= f < |t.slot|
  {
    t.slot[f] != NONE ==>
      && var a := t.slot[f];
      && 0 < a < |t.clients| && t.clients[a].sock == a
      && (f == a || (f == t.clients[a].pty && t.clients[a].state == Established))
      && (t.clients[a].state == New ==> t.clients[a].pty == -1)
      && (t.clients[a].state == Established ==> Live(k, t, a))
  }

  /** Every open descriptor is what its slab entries say. */
  ghost predicate Owned(k: Kernel, t: Slabs, log: seq<Stream>, f: int)
    requires t.Sized() && |log| == |t.clients| && f in k.open && 0 < f < |t.clients|
  {
    match k.open[f]
    case Socket => t.slot[f] == f && Gated(t.clients[f].state, log[f])
    case Pty => t.slot[f] != NONE && t.slot[f] != f
    case Timer => f !in k.reg
    case Fixed => t.slot[f] == NONE
  }

  /** A connection still `new` has been sent the greeting only and had nothing relayed; an
      established one sent the secret, and was sent the greeting and the acknowledgement first. */
  ghost predicate Gated(state: ClientState, log: Stream) {
    match state
    case New => log == Stream(None, "", REMBASH)
    case Established =>
      && log.hello.Some? && |log.hello.value| <= INPUT_SIZE && Accepts(log.hello)
      && REMBASH + OK <= log.output
  }

  ghost predicate TablesOk(k: Kernel, t: Slabs, log: seq<Stream>) {
    && t.Sized() && |log| == |t.clients| && TimersInRange(t) && k.InRange(|t.clients|)
    && (forall f | 0 <= f < |t.slot| :: Paired(k, t, f))
    && (forall f | f in k.open :: Owned(k, t, log, f))
    && (forall f | f in k.timers :: k.open[f] == Timer)
  }

  /** A handler's copy is the client as it stands, so storing it back changes nothing. */
  ghost predicate CopyCurrent(t: Slabs, c: Client)
    requires t.Sized()
  {
    0 < c.sock < |t.clients| && c.state == Established && t.slot[c.sock] == c.sock && t.clients[c.sock] == c
  }

  ghost predicate HandlerOk(t: Slabs, h: Handler)
    requires t.Sized()
  {
    match h
    case Writing(fd, at, to, chunk, copy) =>
      && CopyCurrent(t, copy) && at == copy.sock
      && ((fd == copy.sock && to == copy.pty) || (fd == copy.pty && to == copy.sock))
    case Rearming(fd, copy) => CopyCurrent(t, copy) && (fd == copy.sock || fd == copy.pty)
    case Storing(copy) => CopyCurrent(t, copy)
    case _ => true
  }

  ghost predicate SlabInv(s: State) {
    && Shape(s) && TablesOk(s.kernel, s.slabs, s.log)
    && (forall w | 0 <= w < |s.workers| :: HandlerOk(s.slabs, s.workers[w]))
    && s.listener != s.timerUnit
    && s.listener in s.kernel.open && s.kernel.open[s.listener] == Fixed
    && s.timerUnit in s.kernel.open && s.kernel.open[s.timerUnit] == Fixed
  }

  /** A handler with a copy of the client in slot a. */
  predicate HoldsCopy(h: Handler, a: int) {
    (h.Writing? || h.Rearming? || h.Storing?) && h.copy.sock == a
  }

  ghost predicate CopyHeld(s: State, a: int) {
    exists w :: 0 <= w < |s.workers| && HoldsCopy(s.workers[w], a)
  }

  /** A hang-up that goes through, closing both descriptors of a client. */
  ghost predicate KillingHangUp(s: State)
    requires Shape(s)
  {
    Enabled(s, HangUp) && Kills(s.kernel, s.slabs, s.batch[0])
  }

  /** A hang-up kills no client of which a worker still holds a copy. */
  ghost predicate KillSafe(s: State, l: Label)
    requires Shape(s)
  {
    l.HangUp? && KillingHangUp(s) ==> !CopyHeld(s, s.slabs.slot[s.batch[0]])
  }

  // ----- what each table operation keeps -----

  /** Descriptors closed or opened away from a live client leave it live; its slots are untouched. */
  lemma AcceptKeepsTables(k: Kernel, t: Slabs, log: seq<Stream>, fd: int, timer: int)
    requires TablesOk(k, t, log) && fd !in k.open && timer !in k.open && fd != timer
    requires 0 < fd < |t.clients| && 0 < timer < |t.clients|
    ensures var (k', t') := AcceptTables(k, t, fd, timer);
      && TablesOk(k', t', log[fd := Stream(None, "", REMBASH)])
      && (forall c | CopyCurrent(t, c) :: CopyCurrent(t', c))
  {
    var (k', t') := AcceptTables(k, t, fd, timer);
    var log' := log[fd := Stream(None, "", REMBASH)];
    forall f | 0 <= f < |t'.slot| ensures Paired(k', t', f) {
      assert Paired(k, t, f);
    }
    forall f | f in k'.open ensures Owned(k', t', log', f) {
      if f in k.open {
        assert Owned(k, t, log, f);
        assert Paired(k, t, f);
      }
    }
    forall c | CopyCurrent(t, c) ensures CopyCurrent(t', c) {
      assert Paired(k, t, c.sock);
    }
  }

  lemma AcceptedKeepsPairs(k: Kernel, t: Slabs, log: seq<Stream>, a: int, pty: int)
    requires TablesOk(k, t, log) && 0 < a < |t.clients| && t.slot[a] == a && t.clients[a].state == New
    requires a in k.open && k.open[a] == Socket && pty !in k.open && 0 < pty < |t.clients|
    ensures var k', t' := k.OpenArmed(pty, Pty).Rearm(a), StoreClient(t, Client(a, pty, Established));
      && t'.Sized() && TimersInRange(t') && (forall f | 0 <= f < |t'.slot| :: Paired(k', t', f))
  {
    var k' := k.OpenArmed(pty, Pty).Rearm(a);
    var t' := StoreClient(t, Client(a, pty, Established));
    forall f | 0 <= f < |t'.slot| ensures Paired(k', t', f) {
      assert Paired(k, t, f);
    }
  }

  lemma AcceptedKeepsCopies(k: Kernel, t: Slabs, log: seq<Stream>, a: int, pty: int)
    requires TablesOk(k, t, log) && 0 < a < |t.clients| && t.slot[a] == a && t.clients[a].state == New
    requires pty !in k.open && 0 < pty < |t.clients|
    ensures var t' := StoreClient(t, Client(a, pty, Established));
      t'.Sized() && forall c | CopyCurrent(t, c) :: CopyCurrent(t', c)
  {
    forall c | CopyCurrent(t, c) ensures CopyCurrent(StoreClient(t, Client(a, pty, Established)), c) {
      assert Paired(k, t, c.sock);
    }
  }

  lemma AcceptedKeepsTables(k: Kernel, t: Slabs, log: seq<Stream>, a: int, pty: int, hello: Stream)
    requires TablesOk(k, t, log) && 0 < a < |t.clients| && t.slot[a] == a && t.clients[a].state == New
    requires a in k.open && k.open[a] == Socket && pty !in k.open && 0 < pty < |t.clients|
    requires Gated(Established, hello)
    ensures TablesOk(k.OpenArmed(pty, Pty).Rearm(a), StoreClient(t, Client(a, pty, Established)),
                     log[a := hello][pty := Stream(None, "", "")])
  {
    var k' := k.OpenArmed(pty, Pty).Rearm(a);
    var t' := StoreClient(t, Client(a, pty, Established));
    var log' := log[a := hello][pty := Stream(None, "", "")];
    AcceptedKeepsPairs(k, t, log, a, pty);
    forall f | f in k'.open ensures Owned(k', t', log', f) {
      if f in k.open {
        assert Owned(k, t, log, f);
        assert Paired(k, t, f);
      }
    }
  }

  /** Closing a descriptor that no established client owns, whatever was logged for it last. */
  lemma CloseKeepsTables(k: Kernel, t: Slabs, log: seq<Stream>, fd: int, log': seq<Stream>)
    requires TablesOk(k, t, log) && 0 <= fd < |t.clients|
    requires t.slot[fd] == NONE || t.clients[t.slot[fd]].state == New
    requires |log'| == |log| && forall f | 0 <= f < |log| && f != fd :: log'[f] == log[f]
    ensures TablesOk(k.Close(fd), t, log')
  {
    var k' := k.Close(fd);
    forall f | 0 <= f < |t.slot| ensures Paired(k', t, f) {
      assert Paired(k, t, f) && Paired(k, t, fd);
    }
    forall f | f in k'.open ensures Owned(k', t, log', f) {
      assert Owned(k, t, log, f);
    }
  }

  lemma UnregisterKeepsTables(k: Kernel, t: Slabs, log: seq<Stream>, fd: int)
    requires TablesOk(k, t, log)
    ensures TablesOk(k.Unregister(fd), t, log)
  {
    forall f | 0 <= f < |t.slot| ensures Paired(k.Unregister(fd), t, f) {
      assert Paired(k, t, f);
    }
    forall f | f in k.open ensures Owned(k.Unregister(fd), t, log, f) {
      assert Owned(k, t, log, f);
    }
  }

  /** Arming and disarming registered descriptors does not concern the slabs. */
  lemma ArmedKeepsTables(k: Kernel, t: Slabs, log: seq<Stream>, armed: set<int>)
    requires TablesOk(k, t, log) && forall f | f in armed :: f in k.reg
    ensures TablesOk(k.(armed := armed), t, log)
  {
    var k' := k.(armed := armed);
    forall f | 0 <= f < |t.slot| ensures Paired(k', t, f) {
      assert Paired(k, t, f);
    }
    forall f | f in k'.open ensures Owned(k', t, log, f) {
      assert Owned(k, t, log, f);
    }
  }

  lemma ReportKeepsTables(k: Kernel, t: Slabs, log: seq<Stream>, due: seq<int>)
    requires TablesOk(k, t, log)
    ensures TablesOk(k.Report(due), t, log)
  {
    forall f | 0 <= f < |t.slot| ensures Paired(k.Report(due), t, f) {
      assert Paired(k, t, f);
    }
    forall f | f in k.open ensures Owned(k.Report(due), t, log, f) {
      assert Owned(k, t, log, f);
    }
  }

  /** The slabs after the established client of slot a is gone. */
  function Killed(t: Slabs, a: int, p: int): Slabs
    requires t.Sized() && 0 <= a < |t.clients| && 0 <= p < |t.slot|
  {
    t.(slot := t.slot[p := NONE][a := NONE], clients := t.clients[a := t.clients[a].(sock := -1)])
  }

  lemma KilledKeepsTables(k: Kernel, t: Slabs, log: seq<Stream>, a: int)
    requires TablesOk(k, t, log) && Live(k, t, a)
    ensures var p := t.clients[a].pty;
      && TablesOk(k.Close(a).Close(p), Killed(t, a, p), log)
      && (forall c | CopyCurrent(t, c) && c.sock != a :: CopyCurrent(Killed(t, a, p), c))
  {
    var p := t.clients[a].pty;
    var k', t' := k.Close(a).Close(p), Killed(t, a, p);
    forall f | 0 <= f < |t.slot| ensures Paired(k', t', f) {
      assert Paired(k, t, f);
    }
    forall f | f in k'.open ensures Owned(k', t', log, f) {
      assert Owned(k, t, log, f);
    }
    forall c | CopyCurrent(t, c) && c.sock != a ensures CopyCurrent(t', c) {
      assert Paired(k, t, c.sock);
    }
  }

  lemma KillKeepsTables(k: Kernel, t: Slabs, log: seq<Stream>, fd: int)
    requires TablesOk(k, t, log) && 0 <= fd < |t.clients|
    ensures var (k', t') := KillTables(k, t, fd);
      && TablesOk(k', t', log)
      && (forall c | CopyCurrent(t, c) && c.sock != t.slot[fd] :: CopyCurrent(t', c))
      && (!Kills(k, t, fd) ==> t' == t)
  {
    assert Paired(k, t, fd);
    if t.slot[fd] != NONE {
      var a := t.slot[fd];
      var c := t.clients[a];
      UnregisterKeepsTables(k, t, log, a);
      if a in k.reg && c.pty in k.Unregister(a).reg {
        KilledKeepsTables(k, t, log, a);
      }
    }
  }

  /** A timer's descriptor number belongs to no established client. */
  lemma TimerOwnsNothing(k: Kernel, t: Slabs, log: seq<Stream>, timer: int)
    requires TablesOk(k, t, log) && timer in k.timers
    ensures t.slot[timer] == NONE || t.clients[t.slot[timer]].state == New
  {
    assert Paired(k, t, timer);
  }

  /** No descriptor of an established client is closed. */
  ghost predicate SparesEstablished(k: Kernel, k': Kernel, t: Slabs)
    requires t.Sized() && TimersInRange(t)
  {
    forall f | f in k.open && 0 <= f < |t.slot| && t.slot[f] != NONE && t.clients[t.slot[f]].state == Established ::
      f in k'.open
  }

  /** Whatever timers fired, in whatever order, and whatever descriptor numbers the timer slab still
      holds, a sweep closes nothing that belongs to an established client. */
  lemma {:induction false} SweepKeepsTables(k: Kernel, t: Slabs, log: seq<Stream>, due: seq<int>)
    requires TablesOk(k, t, log) && forall i | 0 <= i < |due| :: 0 <= due[i] < |t.timerFor|
    ensures TablesOk(Sweep(k, t, due).0, t, log)
    ensures SparesEstablished(k, Sweep(k, t, due).0, t)
    decreases |due|
  {
    if due != [] {
      var fd := t.timerFor[due[0]];
      if Stalled(t, fd) {
        UnregisterKeepsTables(k, t, log, fd);
        CloseKeepsTables(k.Unregister(fd), t, log, fd, log);
      }
      var k1 := if Stalled(t, fd) then k.Unregister(fd).Close(fd) else k;
      if due[0] in k1.timers {
        TimerOwnsNothing(k1, t, log, due[0]);
        CloseKeepsTables(k1, t, log, due[0], log);
        SweepKeepsTables(k1.Close(due[0]), t, log, due[1..]);
      }
    }
  }

  // ----- every step -----

  /** A handler's write-back of a current copy, and the state it sets after a write, change nothing. */
  lemma CurrentCopyStored(t: Slabs, c: Client, p: int)
    requires t.Sized() && CopyCurrent(t, c) && c.pty == p && 0 < p < |t.clients| && t.slot[p] == c.sock
    ensures StoreClient(t, c) == t
  {
  }

  lemma CopyIsOwnSlot(k: Kernel, t: Slabs, log: seq<Stream>, fd: int)
    requires TablesOk(k, t, log) && Known(t, fd)
    ensures var a := t.slot[fd]; CopyOf(t, fd) == t.clients[a] && CopyOf(t, fd).sock == a
  {
    assert Paired(k, t, fd);
  }

  lemma GreetSlabs(s: State, w: nat, message: Option<string>, pty: int)
    requires SlabInv(s) && Enabled(s, Greet(w, message, pty))
    ensures SlabInv(GreetStep(s, w, message, pty))
  {
    var k, t := s.kernel, s.slabs;
    var fd := s.workers[w].fd;
    CopyIsOwnSlot(k, t, s.log, fd);
    assert Paired(k, t, fd);
    var c := CopyOf(t, fd);
    assert fd == c.sock && t.slot[fd] == fd;
    if Accepts(message) {
      assert Owned(k, t, s.log, fd);
      var hello := GreetLog(s, c, message, pty)[fd];
      assert Gated(Established, hello);
      AcceptedKeepsTables(k, t, s.log, fd, pty, hello);
      AcceptedKeepsCopies(k, t, s.log, fd, pty);
      assert GreetLog(s, c, message, pty) == s.log[fd := hello][pty := Stream(None, "", "")];
    } else {
      assert StoreClient(t, c) == t;
      CloseKeepsTables(k, t, s.log, fd, GreetLog(s, c, message, pty));
    }
  }

  lemma AcceptSlabs(s: State, w: nat, fd: int, timer: int)
    requires SlabInv(s) && Enabled(s, Accept(w, fd, timer))
    ensures SlabInv(AcceptStep(s, w, fd, timer))
  {
    AcceptKeepsTables(s.kernel, s.slabs, s.log, fd, timer);
    var (k, t) := AcceptTables(s.kernel, s.slabs, fd, timer);
    var s' := AcceptStep(s, w, fd, timer);
    ArmedKeepsTables(k, t, s'.log, k.Rearm(s.listener).armed);
  }

  lemma HangUpSlabs(s: State)
    requires SlabInv(s) && Enabled(s, HangUp) && KillSafe(s, HangUp)
    ensures SlabInv(HangUpStep(s))
  {
    assert KillingHangUp(s) ==> forall w | 0 <= w < |s.workers| :: !HoldsCopy(s.workers[w], s.slabs.slot[s.batch[0]]);
    KillKeepsTables(s.kernel, s.slabs, s.log, s.batch[0]);
    assert Paired(s.kernel, s.slabs, s.batch[0]);
    assert Owned(s.kernel, s.slabs, s.log, s.listener) && Owned(s.kernel, s.slabs, s.log, s.timerUnit);
  }

  lemma SweepSlabs(s: State, due: seq<int>)
    requires SlabInv(s) && Enabled(s, SweepTimers(due))
    ensures SlabInv(SweepStep(s, due))
  {
    var k0 := s.kernel.Report(due);
    var (k, _) := HandleTimers(s.kernel, s.slabs, due);
    ReportKeepsTables(s.kernel, s.slabs, s.log, due);
    SweepKeepsTables(k0, s.slabs, s.log, due);
    SweepKeepsFixed(k0, s.slabs, s.log, due, s.listener);
    SweepKeepsFixed(k0, s.slabs, s.log, due, s.timerUnit);
    ArmedKeepsTables(k, s.slabs, s.log, k.Rearm(s.timerUnit).armed);
  }

  lemma {:induction false} SweepKeepsFixed(k: Kernel, t: Slabs, log: seq<Stream>, due: seq<int>, fd: int)
    requires TablesOk(k, t, log) && forall i | 0 <= i < |due| :: 0 <= due[i] < |t.timerFor|
    requires fd in k.open && k.open[fd] == Fixed
    ensures var k' := Sweep(k, t, due).0; fd in k'.open && k'.open[fd] == Fixed && (fd in k.reg ==> fd in k'.reg)
    decreases |due|
  {
    if due != [] {
      assert Owned(k, t, log, fd);
      var c := t.timerFor[due[0]];
      if Stalled(t, c) {
        UnregisterKeepsTables(k, t, log, c);
        CloseKeepsTables(k.Unregister(c), t, log, c, log);
      }
      var k1 := if Stalled(t, c) then k.Unregister(c).Close(c) else k;
      if due[0] in k1.timers {
        TimerOwnsNothing(k1, t, log, due[0]);
        CloseKeepsTables(k1, t, log, due[0], log);
        SweepKeepsFixed(k1.Close(due[0]), t, log, due[1..], fd);
      }
    }
  }

  /** Relaying through an established client's descriptor adds to its log only. */
  lemma RelayKeepsTables(k: Kernel, t: Slabs, log: seq<Stream>, fd: int, log': seq<Stream>)
    requires TablesOk(k, t, log) && 0 <= fd < |t.clients|
    requires t.slot[fd] != NONE && t.clients[t.slot[fd]].state == Established
    requires |log'| == |log| && log'[fd].hello == log[fd].hello && log[fd].output <= log'[fd].output
    requires forall f | 0 <= f < |log| && f != fd :: log'[f] == log[f]
    ensures TablesOk(k, t, log')
  {
    forall f | f in k.open ensures Owned(k, t, log', f) {
      assert Owned(k, t, log, f);
    }
  }

  lemma ReadFailsSlabs(s: State, w: nat)
    requires SlabInv(s) && Enabled(s, ReadFails(w))
    ensures SlabInv(Apply(s, ReadFails(w)))
  {
    var fd := s.workers[w].fd;
    CopyIsOwnSlot(s.kernel, s.slabs, s.log, fd);
    assert Paired(s.kernel, s.slabs, fd);
  }

  lemma ReadSlabs(s: State, w: nat, chunk: string)
    requires SlabInv(s) && Enabled(s, Read(w, chunk))
    ensures SlabInv(Apply(s, Read(w, chunk)))
  {
    var fd := s.workers[w].fd;
    CopyIsOwnSlot(s.kernel, s.slabs, s.log, fd);
    assert Paired(s.kernel, s.slabs, fd);
    RelayKeepsTables(s.kernel, s.slabs, s.log, fd, Received(s.log, fd, chunk));
  }

  lemma WriteSlabs(s: State, w: nat)
    requires SlabInv(s) && Enabled(s, Write(w))
    ensures SlabInv(WriteStep(s, w)) && WriteStep(s, w).slabs == s.slabs
  {
    var Writing(fd, at, to, chunk, copy) := s.workers[w];
    assert HandlerOk(s.slabs, s.workers[w]);
    assert Paired(s.kernel, s.slabs, at);
    assert s.slabs.clients[at := s.slabs.clients[at].(state := Established)] == s.slabs.clients;
    RelayKeepsTables(s.kernel, s.slabs, s.log, to, Sent(s.log, to, chunk));
  }

  lemma StoreBackSlabs(s: State, w: nat)
    requires SlabInv(s) && Enabled(s, StoreBack(w))
    ensures Apply(s, StoreBack(w)).slabs == s.slabs && SlabInv(Apply(s, StoreBack(w)))
  {
    var c := s.workers[w].copy;
    assert HandlerOk(s.slabs, s.workers[w]);
    assert Paired(s.kernel, s.slabs, c.sock);
    CurrentCopyStored(s.slabs, c, c.pty);
  }

  lemma RearmSlabs(s: State, w: nat)
    requires SlabInv(s) && Enabled(s, Rearm(w))
    ensures SlabInv(Apply(s, Rearm(w)))
  {
    assert HandlerOk(s.slabs, s.workers[w]);
    ArmedKeepsTables(s.kernel, s.slabs, s.log, s.kernel.Rearm(s.workers[w].fd).armed);
  }

  lemma QueueSlabs(s: State, l: Label)
    requires SlabInv(s) && Enabled(s, l) && (l.EpollWait? || l.AddTask? || l.Take?)
    ensures SlabInv(Apply(s, l)) && Apply(s, l).slabs == s.slabs
  {
    var s' := Apply(s, l);
    ArmedKeepsTables(s.kernel, s.slabs, s.log, s'.kernel.armed);
    match l
    case EpollWait(events) =>
    case AddTask => StoreAppends(s.ring, s.batch[0]);
    case Take(w) => DropTakesHead(s.ring);
  }

  lemma StepSlabs(s: State, l: Label)
    requires SlabInv(s) && Enabled(s, l) && KillSafe(s, l)
    ensures SlabInv(Apply(s, l))
  {
    match l
    case SweepTimers(due) => SweepSlabs(s, due);
    case HangUp => HangUpSlabs(s);
    case Accept(w, fd, timer) => AcceptSlabs(s, w, fd, timer);
    case Greet(w, message, pty) => GreetSlabs(s, w, message, pty);
    case Read(w, chunk) => ReadSlabs(s, w, chunk);
    case ReadFails(w) => ReadFailsSlabs(s, w);
    case Ignore(w) =>
    case Write(w) => WriteSlabs(s, w);
    case Rearm(w) => RearmSlabs(s, w);
    case StoreBack(w) => StoreBackSlabs(s, w);
    case _ => QueueSlabs(s, l);
  }
}
