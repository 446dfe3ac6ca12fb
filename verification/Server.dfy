/** The server's data: descriptors and their one-shot events as the kernel keeps them, the three slabs,
    and the operations on both. */
module Server {
  const NONE := -1

  datatype Kind = Socket | Pty | Timer | Fixed

  datatype ClientState = New | Established

  datatype Client = Client(sock: int, pty: int, state: ClientState)

  /** client_slab, client_ptr_slab (as slot indices, NONE for null) and timer_slab. */
  datatype Slabs = Slabs(clients: seq<Client>, slot: seq<int>, timerFor: seq<int>) {
    ghost predicate Sized() {
      |slot| == 2 * |clients| && |timerFor| == |clients|
    }
  }

  /** The open descriptors, those registered with the main epoll unit, those of them whose one-shot
      event is armed, those registered with the timer epoll unit, and those of them that can still fire. */
  datatype Kernel = Kernel(
    open: map<int, Kind>, reg: set<int>, armed: set<int>, timers: set<int>, timersArmed: set<int>)
  {
    function Close(fd: int): Kernel {
      Kernel(open - {fd}, reg - {fd}, armed - {fd}, timers - {fd}, timersArmed - {fd})
    }

    function Unregister(fd: int): Kernel {
      this.(reg := reg - {fd}, armed := armed - {fd})
    }

    /** Modifying a registration arms it again; it fails, without effect, for other descriptors. */
    function Rearm(fd: int): Kernel {
      if fd in reg then this.(armed := armed + {fd}) else this
    }

    function OpenArmed(fd: int, kind: Kind): Kernel {
      this.(open := open[fd := kind], reg := reg + {fd}, armed := armed + {fd})
    }

    /** A new one-shot timer. */
    function OpenTimer(fd: int): Kernel {
      this.(open := open[fd := Timer], timers := timers + {fd}, timersArmed := timersArmed + {fd})
    }

    /** The timer unit reports timers that fired; no code ever arms a timer again. */
    function Report(due: seq<int>): Kernel {
      this.(timersArmed := timersArmed - (set m | m in due))
    }

    ghost predicate InRange(max: nat) {
      && (forall f | f in open :: 0 < f < max)
      && (forall f | f in reg :: f in open) && (forall f | f in armed :: f in reg)
      && (forall f | f in timers :: f in open) && (forall f | f in timersArmed :: f in timers)
    }
  }

  // ----- operations on the kernel and the slabs -----

  /** A new connection on `fd`, with timer descriptor `timer` (create_client_struct, setup_timer). */
  function AcceptTables(k: Kernel, t: Slabs, fd: int, timer: int): (Kernel, Slabs)
    requires t.Sized() && 0 < fd < |t.clients| && 0 < timer < |t.clients|
  {
    (k.OpenArmed(fd, Socket).OpenTimer(timer),
     t.(clients := t.clients[fd := Client(fd, -1, New)], slot := t.slot[fd := fd], timerFor := t.timerFor[timer := fd]))
  }

  /** The end of process_task: the handler's copy goes back to its slot, and both descriptors point to it. */
  function StoreClient(t: Slabs, c: Client): Slabs
    requires t.Sized() && 0 <= c.sock < |t.clients| && c.pty < |t.clients|
  {
    if c.sock == 0 then t
    else
      var slot := t.slot[c.sock := c.sock];
      t.(clients := t.clients[c.sock := c], slot := if c.pty > 0 then slot[c.pty := c.sock] else slot)
  }

  /** The `new` case for the client copy c handled through `fd`: refused, its socket is closed;
      accepted, it gets the PTY `pty` and `fd` is armed again. */
  function GreetTables(k: Kernel, t: Slabs, fd: int, c: Client, accepted: bool, pty: int): (Kernel, Slabs)
    requires t.Sized() && 0 <= c.sock < |t.clients| && c.pty < |t.clients| && 0 < pty < |t.clients|
  {
    if accepted then
      (k.OpenArmed(pty, Pty).Rearm(fd), StoreClient(t, Client(c.sock, pty, Established)))
    else
      (k.Close(c.sock), StoreClient(t, c))
  }

  /** kill_client gets to its end: both descriptors of the client are registered. */
  predicate Kills(k: Kernel, t: Slabs, fd: int)
    requires t.Sized() && 0 <= fd < |t.slot| && (t.slot[fd] != NONE ==> 0 <= t.slot[fd] < |t.clients|)
  {
    t.slot[fd] != NONE &&
    var c := t.clients[t.slot[fd]];
    c.sock in k.reg && c.pty in k.reg && c.pty != c.sock
  }

  /** kill_client, stopping where the code stops when a descriptor is not registered. */
  function KillTables(k: Kernel, t: Slabs, fd: int): (Kernel, Slabs)
    requires t.Sized() && 0 <= fd < |t.slot| && k.InRange(|t.clients|)
    requires t.slot[fd] != NONE ==> 0 <= t.slot[fd] < |t.clients|
  {
    if t.slot[fd] == NONE then (k, t)
    else
      var c := t.clients[t.slot[fd]];
      if c.sock !in k.reg then (k, t)
      else if c.pty !in k.Unregister(c.sock).reg then (k.Unregister(c.sock), t)
      else
        (k.Close(c.sock).Close(c.pty),
         t.(slot := t.slot[c.pty := NONE][c.sock := NONE],
            clients := t.clients[c.sock := t.clients[c.sock].(sock := -1)]))
  }

  ghost predicate TimersInRange(t: Slabs) {
    && (forall i | 0 <= i < |t.timerFor| :: 0 <= t.timerFor[i] < |t.clients|)
    && (forall f | 0 <= f < |t.slot| :: t.slot[f] != NONE ==> 0 <= t.slot[f] < |t.clients|)
  }

  /** The timer's client is a connection still in the `new` state. */
  predicate Stalled(t: Slabs, fd: int)
    requires t.Sized() && 0 <= fd < |t.slot| && (t.slot[fd] != NONE ==> 0 <= t.slot[fd] < |t.clients|)
  {
    t.slot[fd] != NONE && t.clients[t.slot[fd]].state == New
  }

  /** The loop of handle_timer_epoll_loop over the timers that fired; false when it gives up midway. */
  function Sweep(k: Kernel, t: Slabs, due: seq<int>): (Kernel, bool)
    requires t.Sized() && TimersInRange(t) && forall i | 0 <= i < |due| :: 0 <= due[i] < |t.timerFor|
    decreases |due|
  {
    if due == [] then (k, true)
    else
      var fd := t.timerFor[due[0]];
      if Stalled(t, fd) && fd !in k.reg then (k, false)
      else
        var k1 := if Stalled(t, fd) then k.Unregister(fd).Close(fd) else k;
        if due[0] !in k1.timers then (k1, false)
        else Sweep(k1.Close(due[0]), t, due[1..])
  }

  /** The loop arms no timer. */
  lemma {:induction false} SweepArmsNone(k: Kernel, t: Slabs, due: seq<int>)
    requires t.Sized() && TimersInRange(t) && forall i | 0 <= i < |due| :: 0 <= due[i] < |t.timerFor|
    ensures Sweep(k, t, due).0.timersArmed <= k.timersArmed
    decreases |due|
  {
    if due != [] {
      var fd := t.timerFor[due[0]];
      var k1 := if Stalled(t, fd) then k.Unregister(fd).Close(fd) else k;
      if !(Stalled(t, fd) && fd !in k.reg) && due[0] in k1.timers {
        SweepArmsNone(k1.Close(due[0]), t, due[1..]);
      }
    }
  }

  /** handle_timer_epoll_loop: the due timers are reported, each for the only time, and looked at in turn. */
  function HandleTimers(k: Kernel, t: Slabs, due: seq<int>): (Kernel, bool)
    requires t.Sized() && TimersInRange(t) && forall i | 0 <= i < |due| :: 0 <= due[i] < |t.timerFor|
  {
    Sweep(k.Report(due), t, due)
  }
}
