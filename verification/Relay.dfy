/** In-order relay between a client's connection and its PTY, through any number of workers. */
module Relay {
  import opened Wrappers
  import opened Tally
  import opened Handshake
  import opened Server
  import opened Dispatcher
  import opened Tokens

  predicate Writes(h: Handler, f: int) { h.Writing? && h.fd == f }

  /** All that was read from f has been written to g after `before`, but for the one chunk that a
      worker writing for f still holds. */
  ghost predicate Flow(s: State, f: int, g: int, before: string)
    requires 0 <= f < |s.log| && 0 <= g < |s.log|
  {
    && (forall w | 0 <= w < |s.workers| && Writes(s.workers[w], f) ::
          s.log[g].output + s.workers[w].chunk == before + s.log[f].input)
    && ((forall w | 0 <= w < |s.workers| :: !Writes(s.workers[w], f)) ==> s.log[g].output == before + s.log[f].input)
  }

  ghost predicate FlowsAt(s: State, a: int)
    requires Shape(s) && 0 < a < Max(s)
  {
    var p := s.slabs.clients[a].pty;
    0 < p < Max(s) && Flow(s, a, p, "") && Flow(s, p, a, REMBASH + OK)
  }

  ghost predicate RelayInv(s: State)
    requires Shape(s)
  {
    forall a | 0 < a < Max(s) && Live(s.kernel, s.slabs, a) :: FlowsAt(s, a)
  }

  /** A registered descriptor's handler is the only one. */
  lemma LoneHandler(s: State, w: nat, v: nat, f: int)
    requires Shape(s) && TokenInv(s) && w < |s.workers| && v < |s.workers|
    requires Handles(s.workers[w], f) && Handles(s.workers[v], f)
    ensures v == w
  {
    assert TokenAt(s, f);
    if v != w {
      SumAtLeastTwo(s.workers, w, v, Idle, Carries(f));
    }
  }

  /** A flow whose two logs and writers are untouched goes on. */
  lemma FlowKept(s: State, s': State, f: int, g: int, before: string)
    requires 0 <= f < |s.log| == |s'.log| && 0 <= g < |s.log| && |s'.workers| == |s.workers|
    requires Flow(s, f, g, before)
    requires s'.log[f].input == s.log[f].input && s'.log[g].output == s.log[g].output
    requires forall w | 0 <= w < |s.workers| && (Writes(s.workers[w], f) || Writes(s'.workers[w], f)) ::
      s'.workers[w] == s.workers[w]
    ensures Flow(s', f, g, before)
  {
  }

  /** Reading takes up a descriptor that nobody was writing for. */
  lemma FlowRead(s: State, w: nat, chunk: string, g: int, before: string)
    requires SlabInv(s) && TokenInv(s) && Enabled(s, Read(w, chunk)) && 0 <= g < Max(s)
    requires 0 <= s.workers[w].fd < |s.log| && g != s.workers[w].fd && Flow(s, s.workers[w].fd, g, before)
    ensures Flow(Apply(s, Read(w, chunk)), s.workers[w].fd, g, before)
  {
    var fd := s.workers[w].fd;
    var s' := Apply(s, Read(w, chunk));
    forall v: nat | v < |s.workers| && Handles(s.workers[v], fd) ensures v == w {
      LoneHandler(s, w, v, fd);
    }
    assert s.log[g].output == before + s.log[fd].input;
    assert s'.log[g].output + chunk == before + s'.log[fd].input;
    assert Writes(s'.workers[w], fd);
  }

  lemma FlowWrite(s: State, w: nat, before: string)
    requires SlabInv(s) && TokenInv(s) && Enabled(s, Write(w))
    requires var h := s.workers[w]; 0 <= h.fd < |s.log| && h.fd != h.to && Flow(s, h.fd, h.to, before)
    ensures Flow(WriteStep(s, w), s.workers[w].fd, s.workers[w].to, before)
  {
    var h := s.workers[w];
    var s' := WriteStep(s, w);
    forall v: nat | v < |s.workers| && Handles(s.workers[v], h.fd) ensures v == w {
      LoneHandler(s, w, v, h.fd);
    }
    assert Writes(s.workers[w], h.fd);
    assert s'.log[h.to].output == before + s'.log[h.fd].input;
  }

  /** Two live clients share no descriptor. */
  lemma LivePairsDisjoint(k: Kernel, t: Slabs, a: int, b: int)
    requires t.Sized() && Live(k, t, a) && Live(k, t, b) && a != b
    ensures a != t.clients[b].pty && t.clients[a].pty != b && t.clients[a].pty != t.clients[b].pty
  {
  }

  lemma ReadFlowsAt(s: State, w: nat, chunk: string, a: int)
    requires SlabInv(s) && TokenInv(s) && RelayInv(s) && Enabled(s, Read(w, chunk)) && Shape(Apply(s, Read(w, chunk)))
    requires 0 < a < Max(s) && Live(s.kernel, s.slabs, a)
    ensures FlowsAt(Apply(s, Read(w, chunk)), a)
  {
    hide TablesOk, TokenAt, HandlerOk, BothRegistered;
    var fd := s.workers[w].fd;
    var s' := Apply(s, Read(w, chunk));
    var p := s.slabs.clients[a].pty;
    assert FlowsAt(s, a);
    assert s'.workers == s.workers[w := s'.workers[w]] && Writes(s'.workers[w], fd);
    if fd == a {
      FlowRead(s, w, chunk, p, "");
    } else {
      FlowKept(s, s', a, p, "");
    }
    if fd == p {
      FlowRead(s, w, chunk, a, REMBASH + OK);
    } else {
      FlowKept(s, s', p, a, REMBASH + OK);
    }
  }

  lemma ReadFlows(s: State, w: nat, chunk: string)
    requires SlabInv(s) && TokenInv(s) && RelayInv(s) && Enabled(s, Read(w, chunk)) && Shape(Apply(s, Read(w, chunk)))
    ensures RelayInv(Apply(s, Read(w, chunk)))
  {
    var s' := Apply(s, Read(w, chunk));
    forall a | 0 < a < Max(s') && Live(s'.kernel, s'.slabs, a) ensures FlowsAt(s', a) {
      ReadFlowsAt(s, w, chunk, a);
    }
  }

  lemma WriteFlowsAt(s: State, w: nat, a: int)
    requires SlabInv(s) && TokenInv(s) && RelayInv(s) && Enabled(s, Write(w)) && Shape(WriteStep(s, w))
    requires WriteStep(s, w).slabs == s.slabs && 0 < a < Max(s) && Live(s.kernel, s.slabs, a)
    requires var h := s.workers[w];
      && h.at == h.copy.sock && Live(s.kernel, s.slabs, h.at) && h.copy == s.slabs.clients[h.at]
      && ((h.fd == h.copy.sock && h.to == h.copy.pty) || (h.fd == h.copy.pty && h.to == h.copy.sock))
    ensures FlowsAt(WriteStep(s, w), a)
  {
    hide TokenInv, TablesOk, HandlerOk;
    var s' := WriteStep(s, w);
    var Writing(fd, at, to, chunk, copy) := s.workers[w];
    var p := s.slabs.clients[a].pty;
    assert FlowsAt(s, a);
    if a != at {
      LivePairsDisjoint(s.kernel, s.slabs, a, at);
    }
    if fd == a {
      FlowWrite(s, w, "");
    } else {
      FlowKept(s, s', a, p, "");
    }
    if fd == p {
      FlowWrite(s, w, REMBASH + OK);
    } else {
      FlowKept(s, s', p, a, REMBASH + OK);
    }
  }

  lemma WriteFlows(s: State, w: nat)
    requires SlabInv(s) && TokenInv(s) && RelayInv(s) && Enabled(s, Write(w)) && Shape(WriteStep(s, w))
    ensures RelayInv(WriteStep(s, w))
  {
    hide TokenInv, FlowsAt;
    var s' := WriteStep(s, w);
    assert HandlerOk(s.slabs, s.workers[w]);
    assert Paired(s.kernel, s.slabs, s.workers[w].at);
    WriteSlabs(s, w);
    forall a | 0 < a < Max(s') && Live(s'.kernel, s'.slabs, a) ensures FlowsAt(s', a) {
      WriteFlowsAt(s, w, a);
    }
  }

  /** Nobody writes for a descriptor of which no token is out. */
  lemma NobodyWrites(s: State, f: int)
    requires Shape(s) && TokenInv(s) && f !in s.kernel.reg
    ensures forall w | 0 <= w < |s.workers| :: !Handles(s.workers[w], f)
  {
    assert TokenAt(s, f);
    CarriedNonNegative(s, f);
    assert forall w | 0 <= w < |s.workers| :: Carries(f)(s.workers[w]) == 0;
  }

  /** A client just accepted starts with both directions empty. */
  lemma GreetedFlows(s: State, w: nat, message: Option<string>, pty: int)
    requires SlabInv(s) && TokenInv(s) && Enabled(s, Greet(w, message, pty)) && Accepts(message)
    requires Shape(GreetStep(s, w, message, pty))
    ensures 0 < s.workers[w].fd < Max(s) && FlowsAt(GreetStep(s, w, message, pty), s.workers[w].fd)
  {
    var s' := GreetStep(s, w, message, pty);
    var fd := s.workers[w].fd;
    assert Paired(s.kernel, s.slabs, fd);
    CopyIsOwnSlot(s.kernel, s.slabs, s.log, fd);
    assert Owned(s.kernel, s.slabs, s.log, fd);
    forall v: nat | v < |s.workers| && Handles(s.workers[v], fd) ensures v == w {
      LoneHandler(s, w, v, fd);
    }
    NobodyWrites(s, pty);
    assert s'.log[fd].output == (REMBASH + OK) + s'.log[pty].input;
  }

  /** Clients other than the one greeted were live before, and nothing of theirs is touched. */
  lemma GreetElsewhere(s: State, w: nat, message: Option<string>, pty: int, a: int)
    requires SlabInv(s) && Enabled(s, Greet(w, message, pty))
    requires var s' := GreetStep(s, w, message, pty);
      0 < a < Max(s) && a != s.workers[w].fd && Live(s'.kernel, s'.slabs, a)
    ensures var s', p := GreetStep(s, w, message, pty), s.slabs.clients[a].pty;
      && Live(s.kernel, s.slabs, a) && s'.slabs.clients[a].pty == p && 0 < p < Max(s)
      && |s'.log| == |s.log| && s'.log[a] == s.log[a] && s'.log[p] == s.log[p]
  {
    hide HandlerOk;
    var fd := s.workers[w].fd;
    assert Paired(s.kernel, s.slabs, fd);
    CopyIsOwnSlot(s.kernel, s.slabs, s.log, fd);
  }

  lemma GreetKeepsFlows(s: State, w: nat, message: Option<string>, pty: int, a: int)
    requires SlabInv(s) && RelayInv(s) && Enabled(s, Greet(w, message, pty))
    requires Shape(GreetStep(s, w, message, pty))
    requires var s' := GreetStep(s, w, message, pty);
      0 < a < Max(s) && a != s.workers[w].fd && Live(s'.kernel, s'.slabs, a)
    ensures FlowsAt(GreetStep(s, w, message, pty), a)
  {
    hide TablesOk, HandlerOk, Live, GreetTables, GreetLog;
    var s' := GreetStep(s, w, message, pty);
    var p := s.slabs.clients[a].pty;
    GreetElsewhere(s, w, message, pty, a);
    assert FlowsAt(s, a);
    assert s'.workers == s.workers[w := Idle];
    FlowKept(s, s', a, p, "");
    FlowKept(s, s', p, a, REMBASH + OK);
  }

  lemma GreetFlows(s: State, w: nat, message: Option<string>, pty: int)
    requires SlabInv(s) && TokenInv(s) && RelayInv(s) && Enabled(s, Greet(w, message, pty))
    requires Shape(GreetStep(s, w, message, pty))
    ensures RelayInv(GreetStep(s, w, message, pty))
  {
    var s' := GreetStep(s, w, message, pty);
    var fd := s.workers[w].fd;
    assert Paired(s.kernel, s.slabs, fd);
    CopyIsOwnSlot(s.kernel, s.slabs, s.log, fd);
    forall a | 0 < a < Max(s') && Live(s'.kernel, s'.slabs, a) ensures FlowsAt(s', a) {
      if a != fd {
        GreetKeepsFlows(s, w, message, pty, a);
      } else {
        assert Accepts(message);
        GreetedFlows(s, w, message, pty);
      }
    }
  }

  lemma AcceptFlows(s: State, w: nat, fd: int, timer: int)
    requires SlabInv(s) && RelayInv(s) && Enabled(s, Accept(w, fd, timer)) && Shape(AcceptStep(s, w, fd, timer))
    ensures RelayInv(AcceptStep(s, w, fd, timer))
  {
    var s' := AcceptStep(s, w, fd, timer);
    forall a | 0 < a < Max(s') && Live(s'.kernel, s'.slabs, a) ensures FlowsAt(s', a) {
      var p := s.slabs.clients[a].pty;
      assert Paired(s.kernel, s.slabs, a) && Paired(s.kernel, s.slabs, p);
      assert Live(s.kernel, s.slabs, a) && FlowsAt(s, a);
      FlowKept(s, s', a, p, "");
      FlowKept(s, s', p, a, REMBASH + OK);
    }
  }

  /** Steps that leave the logs and the writers alone, and make no client live. */
  lemma OtherFlows(s: State, s': State)
    requires Shape(s) && Shape(s') && RelayInv(s) && Max(s') == Max(s)
    requires s'.log == s.log && |s'.workers| == |s.workers|
    requires forall w | 0 <= w < |s.workers| ::
      s'.workers[w] == s.workers[w] || (!s.workers[w].Writing? && !s'.workers[w].Writing?)
    requires forall a | 0 < a < Max(s) && Live(s'.kernel, s'.slabs, a) ::
      Live(s.kernel, s.slabs, a) && s'.slabs.clients[a].pty == s.slabs.clients[a].pty
    ensures RelayInv(s')
  {
    forall a | 0 < a < Max(s') && Live(s'.kernel, s'.slabs, a) ensures FlowsAt(s', a) {
      var p := s.slabs.clients[a].pty;
      assert FlowsAt(s, a);
      FlowKept(s, s', a, p, "");
      FlowKept(s, s', p, a, REMBASH + OK);
    }
  }

  lemma ClosingFlows(s: State, l: Label)
    requires SlabInv(s) && RelayInv(s) && Enabled(s, l) && (l.SweepTimers? || l.HangUp?) && Shape(Apply(s, l))
    ensures RelayInv(Apply(s, l))
  {
    hide TokenAt, HandlerOk;
    match l
    case SweepTimers(due) =>
      DueTimers(s, due);
      HandleTimersOnlyCloses(s.kernel, s.slabs, s.log, due);
      OtherFlows(s, SweepStep(s, due));
    case HangUp =>
      assert Paired(s.kernel, s.slabs, s.batch[0]);
      OtherFlows(s, HangUpStep(s));
  }

  /** Steps of the queues and of handlers between a read and a write. */
  lemma IdleFlows(s: State, l: Label)
    requires SlabInv(s) && RelayInv(s) && Enabled(s, l) && Shape(Apply(s, l))
    requires !l.Read? && !l.Write? && !l.Greet? && !l.Accept? && !l.SweepTimers? && !l.HangUp?
    ensures RelayInv(Apply(s, l))
  {
    hide TablesOk, HandlerOk;
    OthersKeepTables(s, l);
    OtherFlows(s, Apply(s, l));
  }

  lemma StepFlows(s: State, l: Label)
    requires SlabInv(s) && TokenInv(s) && RelayInv(s) && Enabled(s, l) && Shape(Apply(s, l))
    ensures RelayInv(Apply(s, l))
  {
    hide RelayInv, TablesOk, HandlerOk, TokenInv;
    match l
    case Read(w, chunk) => ReadFlows(s, w, chunk);
    case Write(w) => WriteFlows(s, w);
    case Greet(w, message, pty) => GreetFlows(s, w, message, pty);
    case Accept(w, fd, timer) => AcceptFlows(s, w, fd, timer);
    case SweepTimers(_) => ClosingFlows(s, l);
    case HangUp => ClosingFlows(s, l);
    case _ => IdleFlows(s, l);
  }
}
