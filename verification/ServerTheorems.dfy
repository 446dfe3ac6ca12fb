/** What the dispatcher guarantees over whole runs: slab pairing, the handshake gate, one-shot tokens, a
    pool that never blocks the event loop, and in-order relay. */
module ServerTheorems {
  import opened Wrappers
  import opened RingBuffer
  import opened Handshake
  import opened Server
  import opened Dispatcher
  import opened Tokens
  import opened Relay
  import opened ServerRuns
  import opened Pairing
  import opened Stories

  // ----- quiet runs -----

  lemma {:induction false} RunQuiet(s: State, ls: seq<Label>)
    requires SlabInv(s) && TokenInv(s) && RelayInv(s) && CanRun(s, ls) && QuietRun(s, ls)
    ensures var s' := Exec(s, ls); SlabInv(s') && TokenInv(s') && RelayInv(s')
    decreases |ls|
  {
    hide Apply, Enabled, SlabInv, TokenInv, RelayInv, KillSafe, ClosesArmed;
    if ls != [] {
      QuietExactly(s, ls[0]);
      StepFlows(s, ls[0]);
      RunQuiet(Apply(s, ls[0]), ls[1..]);
    }
  }

  lemma InitInv(s: State)
    requires Init(s)
    ensures SlabInv(s) && TokenInv(s) && RelayInv(s)
  {
    InitSlabs(s);
  }

  // ----- slabs and handshake -----

  /** Over every sequence of accepts, greetings, refusals, timeouts, hang-ups and relays with reuse of
      descriptor numbers: an entry leads to its own socket's slot, from that socket or its PTY; for
      established clients the peer map swaps the two, and distinct clients share no descriptor. */
  lemma {:induction false} SlabPairing(s0: State, ls: seq<Label>)
    requires Init(s0) && CanRun(s0, ls) && KillSafeRun(s0, ls)
    ensures Pairs(Exec(s0, ls).slabs)
  {
    InitSlabs(s0);
    RunSlabs(s0, ls);
    SlabsPair(Exec(s0, ls));
  }

  /** A connection in the `new` state has been sent the greeting and nothing else, and no byte of it
      has been relayed; an established one began, since it was accepted, with a message that is the
      secret, alone or followed by a NUL; and every open PTY belongs to such an established client. */
  lemma {:induction false} HandshakeGate(s0: State, ls: seq<Label>, f: int)
    requires Init(s0) && CanRun(s0, ls) && KillSafeRun(s0, ls) && f in Exec(s0, ls).kernel.open
    ensures var s := Exec(s0, ls);
      match s.kernel.open[f]
      case Socket =>
        && Known(s.slabs, f)
        && (CopyOf(s.slabs, f).state == New ==> Story(s0, ls, f) == Stream(None, "", "<rembash>\n"))
        && (CopyOf(s.slabs, f).state == Established ==>
              GivesSecret(Story(s0, ls, f).hello) && "<rembash>\n<ok>\n" <= Story(s0, ls, f).output)
      case Pty =>
        && Known(s.slabs, f) && CopyOf(s.slabs, f).state == Established && CopyOf(s.slabs, f).pty == f
        && PeerOf(s.slabs, f) in s.kernel.open && s.kernel.open[PeerOf(s.slabs, f)] == Socket
      case _ => true
  {
    InitSlabs(s0);
    RunSlabs(s0, ls);
    RunKeepsSizes(s0, ls);
    LogIsStory(s0, ls, f);
    OpenIsGated(Exec(s0, ls), f);
  }

  lemma OpenIsGated(s: State, f: int)
    requires SlabInv(s) && f in s.kernel.open
    ensures
      match s.kernel.open[f]
      case Socket =>
        && Known(s.slabs, f)
        && (CopyOf(s.slabs, f).state == New ==> s.log[f] == Stream(None, "", "<rembash>\n"))
        && (CopyOf(s.slabs, f).state == Established ==>
              GivesSecret(s.log[f].hello) && "<rembash>\n<ok>\n" <= s.log[f].output)
      case Pty =>
        && Known(s.slabs, f) && CopyOf(s.slabs, f).state == Established && CopyOf(s.slabs, f).pty == f
        && PeerOf(s.slabs, f) in s.kernel.open && s.kernel.open[PeerOf(s.slabs, f)] == Socket
      case _ => true
  {
    assert Owned(s.kernel, s.slabs, s.log, f);
    if s.slabs.slot[f] != NONE {
      assert Paired(s.kernel, s.slabs, f);
      KnownEntry(s, f);
    }
    if s.kernel.open[f] == Socket && s.log[f].hello.Some? && |s.log[f].hello.value| <= INPUT_SIZE {
      AcceptsExactly(s.log[f].hello.value);
    }
    assert REMBASH + OK == "<rembash>\n<ok>\n";
  }

  // ----- tokens -----

  /** In a quiet run every registered descriptor is always in exactly one place (armed, in the batch,
      in the pool's ring, or with one worker), so none is stranded and none is handled twice at once;
      and a worker never starts on a descriptor for which client_ptr_slab has no entry. */
  lemma {:induction false} OneTokenEach(s0: State, ls: seq<Label>)
    requires Init(s0) && CanRun(s0, ls) && QuietRun(s0, ls)
    ensures var s := Exec(s0, ls);
      && s.ring.Valid()
      && (forall f :: TokenAt(s, f))
      && (forall w: nat, v: nat, f | w < v < |s.workers| :: !(Handles(s.workers[w], f) && Handles(s.workers[v], f)))
      && (forall w | 0 <= w < |s.workers| && s.workers[w].Started? ::
            s.workers[w].fd == s.listener || Known(s.slabs, s.workers[w].fd))
  {
    InitInv(s0);
    RunQuiet(s0, ls);
    var s := Exec(s0, ls);
    forall w: nat, v: nat, f | w < v < |s.workers| && Handles(s.workers[w], f) && Handles(s.workers[v], f)
      ensures false
    {
      LoneHandler(s, w, v, f);
    }
    forall w: nat | w < |s.workers| && s.workers[w].Started? && s.workers[w].fd != s.listener
      ensures Known(s.slabs, s.workers[w].fd)
    {
      StartedIsKnown(s, w);
    }
  }

  // ----- the pool never blocks the event loop -----

  lemma {:induction false} CountedInSet(q: seq<int>, members: set<int>)
    requires forall f :: multiset(q)[f] <= if f in members then 1 else 0
    ensures |q| <= |members|
    decreases |q|
  {
    if q != [] {
      var rest := members - {q[0]};
      forall f ensures multiset(q[1..])[f] <= if f in rest then 1 else 0 {
        PopBatch(q, f);
      }
      assert multiset(q)[q[0]] >= 1;
      CountedInSet(q[1..], rest);
    }
  }

  /** The registered descriptors whose events go through the pool. */
  ghost function Pooled(s: State): set<int> { s.kernel.reg - {s.timerUnit} }

  lemma RingBelowRegistered(s: State)
    requires SlabInv(s) && TokenInv(s)
    ensures |s.ring.Contents()| <= |Pooled(s)|
    ensures s.batch != [] && s.batch[0] != s.timerUnit ==> |s.ring.Contents()| < |Pooled(s)|
  {
    var q := s.ring.Contents();
    forall f ensures multiset(q)[f] <= if f in Pooled(s) then 1 else 0 {
      assert TokenAt(s, f);
      CarriedNonNegative(s, f);
    }
    CountedInSet(q, Pooled(s));
    if s.batch != [] && s.batch[0] != s.timerUnit {
      var head := s.batch[0];
      var rest := Pooled(s) - {head};
      BatchIsRegistered(s);
      forall f ensures multiset(q)[f] <= if f in rest then 1 else 0 {
        assert TokenAt(s, f);
        CarriedNonNegative(s, f);
      }
      CountedInSet(q, rest);
      assert |rest| == |Pooled(s)| - 1;
    }
  }

  /** In a quiet run the ring never holds more tasks than there are pooled descriptors. With at most
      size - 2 of them the full flag is never up; with at most size - 1 the event loop never waits to
      add a task. */
  lemma {:induction false} PoolNeverBlocks(s0: State, ls: seq<Label>)
    requires Init(s0) && CanRun(s0, ls) && QuietRun(s0, ls)
    ensures var s := Exec(s0, ls);
      && s.ring.Valid() && |s.ring.Contents()| <= |Pooled(s)|
      && (|Pooled(s)| <= s.ring.Size() - 2 ==> s.ring.fullFlag == 0)
      && (|Pooled(s)| <= s.ring.Size() - 1 && s.batch != [] && s.batch[0] != s.timerUnit ==> Enabled(s, AddTask))
  {
    InitInv(s0);
    RunQuiet(s0, ls);
    var s := Exec(s0, ls);
    RingBelowRegistered(s);
    OccupancyBounds(s.ring);
  }

  // ----- relay -----

  /** The chunk a worker has read from f and not yet written, if any. */
  ghost function InFlight(s: State, f: int): string {
    if exists w: nat :: w < |s.workers| && Writes(s.workers[w], f) then
      var w: nat :| w < |s.workers| && Writes(s.workers[w], f);
      s.workers[w].chunk
    else ""
  }

  lemma FlowTotal(s: State, f: int, g: int, before: string)
    requires 0 <= f < |s.log| && 0 <= g < |s.log| && Flow(s, f, g, before)
    ensures s.log[g].output + InFlight(s, f) == before + s.log[f].input
  {
    if exists w: nat :: w < |s.workers| && Writes(s.workers[w], f) {
    } else {
      assert s.log[g].output + "" == s.log[g].output;
    }
  }

  /** In a quiet run, for every established client: what was written to its PTY, with the chunk still
      in flight, is exactly what the run's steps read from its connection since the handshake, in order;
      and what was written to its connection is the greeting, the acknowledgement, and what they read
      from its PTY. */
  lemma {:induction false} RelayInOrder(s0: State, ls: seq<Label>, a: int)
    requires Init(s0) && CanRun(s0, ls) && QuietRun(s0, ls)
    requires var s := Exec(s0, ls);
      a in s.kernel.open && s.kernel.open[a] == Socket && Known(s.slabs, a) && CopyOf(s.slabs, a).state == Established
    ensures var s := Exec(s0, ls); var p := PeerOf(s.slabs, a);
      && 0 <= a < |s.log| && 0 <= p < |s.log|
      && s.log[p].output + InFlight(s, a) == Story(s0, ls, a).input
      && s.log[a].output + InFlight(s, p) == "<rembash>\n<ok>\n" + Story(s0, ls, p).input
      && Story(s0, ls, p).output == s.log[p].output && Story(s0, ls, a).output == s.log[a].output
  {
    InitInv(s0);
    RunQuiet(s0, ls);
    RunKeepsSizes(s0, ls);
    var s := Exec(s0, ls);
    EstablishedFlows(s, a);
    LogIsStory(s0, ls, a);
    LogIsStory(s0, ls, PeerOf(s.slabs, a));
  }

  lemma EstablishedFlows(s: State, a: int)
    requires SlabInv(s) && RelayInv(s) && a in s.kernel.open && s.kernel.open[a] == Socket
    requires Known(s.slabs, a) && CopyOf(s.slabs, a).state == Established
    ensures var p := PeerOf(s.slabs, a);
      && 0 <= a < |s.log| && 0 <= p < |s.log|
      && s.log[p].output + InFlight(s, a) == s.log[a].input
      && s.log[a].output + InFlight(s, p) == "<rembash>\n<ok>\n" + s.log[p].input
  {
    assert Owned(s.kernel, s.slabs, s.log, a) && Paired(s.kernel, s.slabs, a);
    assert FlowsAt(s, a);
    var p := s.slabs.clients[a].pty;
    FlowTotal(s, a, p, "");
    FlowTotal(s, p, a, REMBASH + OK);
    assert "" + s.log[a].input == s.log[a].input;
    assert REMBASH + OK == "<rembash>\n<ok>\n";
  }
}
