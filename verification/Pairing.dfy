/** Slab pairing and the handshake gate as properties of a state, and how either can fail. */
module Pairing {
  import opened Handshake
  import opened Server
  import opened Dispatcher

  /** A non-null entry f leads to its own socket's slot, from that socket or its PTY; the peers of an
      established client swap; clients share no descriptor. */
  ghost predicate Pairs(t: Slabs) {
    && t.Sized()
    && (forall f | 0 <= f < |t.slot| && t.slot[f] != NONE :: EntryPaired(t, f))
    && (forall f | 0 <= f < |t.slot| && Known(t, f) && CopyOf(t, f).state == Established :: PeersSwap(t, f))
    && (forall f, g | 0 <= f < |t.slot| && 0 <= g < |t.slot| && Known(t, f) && Known(t, g)
          && CopyOf(t, f).state == Established && t.slot[f] != t.slot[g] ::
          PeerOf(t, f) != g && PeerOf(t, f) != PeerOf(t, g))
  }

  ghost predicate EntryPaired(t: Slabs, f: int)
    requires t.Sized() && 0 <= f < |t.slot|
  {
    Known(t, f) && t.clients[t.slot[f]].sock == t.slot[f] && (f == t.slot[f] || f == t.clients[t.slot[f]].pty)
  }

  ghost predicate PeersSwap(t: Slabs, f: int)
    requires t.Sized() && Known(t, f)
  {
    var g := PeerOf(t, f);
    g != f && Known(t, g) && t.slot[g] == t.slot[f] && PeerOf(t, g) == f
  }

  /** A connection that the server takes for established although it never sent the secret. */
  ghost predicate Bypass(s: State, f: int)
    requires Shape(s)
  {
    && f in s.kernel.open && s.kernel.open[f] == Socket
    && Known(s.slabs, f) && CopyOf(s.slabs, f).state == Established && !GivesSecret(s.log[f].hello)
  }

  /** It even has a slot of its own. */
  ghost predicate Forgery(s: State, f: int)
    requires Shape(s)
  {
    Bypass(s, f) && s.slabs.slot[f] == f
  }

  ghost predicate Bypassed(s: State)
    requires Shape(s)
  {
    exists f :: Bypass(s, f)
  }

  ghost predicate Forged(s: State)
    requires Shape(s)
  {
    exists f :: Forgery(s, f)
  }

  // ----- the slabs' invariant excludes both -----

  lemma KnownEntry(s: State, f: int)
    requires SlabInv(s) && 0 <= f < |s.slabs.slot| && s.slabs.slot[f] != NONE
    ensures EntryPaired(s.slabs, f) && CopyOf(s.slabs, f) == s.slabs.clients[s.slabs.slot[f]]
  {
    assert Paired(s.kernel, s.slabs, f);
  }

  /** An established client's peer is the other of its two descriptors. */
  lemma PeerSwaps(s: State, f: int)
    requires SlabInv(s) && 0 <= f < |s.slabs.slot| && Known(s.slabs, f) && CopyOf(s.slabs, f).state == Established
    ensures PeersSwap(s.slabs, f)
  {
    assert Paired(s.kernel, s.slabs, f);
    KnownEntry(s, f);
    KnownEntry(s, PeerOf(s.slabs, f));
  }

  lemma PeersDiffer(s: State, f: int, g: int)
    requires SlabInv(s) && 0 <= f < |s.slabs.slot| && 0 <= g < |s.slabs.slot|
    requires Known(s.slabs, f) && Known(s.slabs, g) && CopyOf(s.slabs, f).state == Established
    requires s.slabs.slot[f] != s.slabs.slot[g]
    ensures PeerOf(s.slabs, f) != g && PeerOf(s.slabs, f) != PeerOf(s.slabs, g)
  {
    PeerSwaps(s, f);
    KnownEntry(s, g);
    assert Paired(s.kernel, s.slabs, g);
    if CopyOf(s.slabs, g).state == Established {
      PeerSwaps(s, g);
    }
  }

  lemma SlabsPair(s: State)
    requires SlabInv(s)
    ensures Pairs(s.slabs)
  {
    var t := s.slabs;
    forall f | 0 <= f < |t.slot| && t.slot[f] != NONE ensures EntryPaired(t, f) {
      KnownEntry(s, f);
    }
    forall f | 0 <= f < |t.slot| && Known(t, f) && CopyOf(t, f).state == Established ensures PeersSwap(t, f) {
      PeerSwaps(s, f);
    }
    forall f, g | 0 <= f < |t.slot| && 0 <= g < |t.slot| && Known(t, f) && Known(t, g)
        && CopyOf(t, f).state == Established && t.slot[f] != t.slot[g]
      ensures PeerOf(t, f) != g && PeerOf(t, f) != PeerOf(t, g)
    {
      PeersDiffer(s, f, g);
    }
  }

  lemma SlabsGate(s: State)
    requires SlabInv(s)
    ensures !Bypassed(s) && !Forged(s)
  {
    forall f | f in s.kernel.open && s.kernel.open[f] == Socket && Known(s.slabs, f)
        && CopyOf(s.slabs, f).state == Established
      ensures GivesSecret(s.log[f].hello)
    {
      assert Owned(s.kernel, s.slabs, s.log, f);
      KnownEntry(s, f);
      AcceptsExactly(s.log[f].hello.value);
    }
  }
}
