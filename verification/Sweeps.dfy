/** The timer sweep: when it runs to its end, and exactly what it closes. */
module Sweeps {
  import opened Server
  import opened Dispatcher

  /** The timers that fired are distinct and registered. */
  ghost predicate Due(k: Kernel, t: Slabs, due: seq<int>) {
    Distinct(due) && forall i | 0 <= i < |due| :: due[i] in k.timers && 0 <= due[i] < |t.timerFor|
  }

  /** Each due timer of a stalled connection still finds it registered, and is the first to do so. */
  ghost predicate Removable(k: Kernel, t: Slabs, due: seq<int>)
    requires t.Sized() && TimersInRange(t) && Due(k, t, due)
  {
    && (forall i | 0 <= i < |due| && Stalled(t, t.timerFor[due[i]]) :: t.timerFor[due[i]] in k.reg)
    && (forall i, j | 0 <= i < j < |due| && Stalled(t, t.timerFor[due[j]]) :: t.timerFor[due[i]] != t.timerFor[due[j]])
  }

  /** The kernel after the first due timer was dealt with. */
  function AfterFirst(k: Kernel, t: Slabs, timer: int): Kernel
    requires t.Sized() && TimersInRange(t) && 0 <= timer < |t.timerFor|
  {
    var fd := t.timerFor[timer];
    (if Stalled(t, fd) then k.Unregister(fd).Close(fd) else k).Close(timer)
  }

  lemma FirstKeepsTables(k: Kernel, t: Slabs, log: seq<Stream>, due: seq<int>)
    requires TablesOk(k, t, log) && due != [] && Due(k, t, due)
    requires Stalled(t, t.timerFor[due[0]]) ==> t.timerFor[due[0]] in k.reg
    ensures var k1 := AfterFirst(k, t, due[0]);
      && TablesOk(k1, t, log) && Due(k1, t, due[1..]) && Sweep(k, t, due) == Sweep(k1, t, due[1..])
      && (forall f :: f in k1.reg <==> f in k.reg && !(f == t.timerFor[due[0]] && Stalled(t, f)))
  {
    var fd := t.timerFor[due[0]];
    if Stalled(t, fd) {
      assert Owned(k, t, log, fd);
      UnregisterKeepsTables(k, t, log, fd);
      CloseKeepsTables(k.Unregister(fd), t, log, fd, log);
    }
    assert forall i | 0 <= i < |due| :: Owned(k, t, log, due[i]);
    var k0 := if Stalled(t, fd) then k.Unregister(fd).Close(fd) else k;
    TimerOwnsNothing(k0, t, log, due[0]);
    CloseKeepsTables(k0, t, log, due[0], log);
  }

  /** The sweep deals with every timer that fired if and only if no due timer's stalled connection has
      left the epoll unit by then; otherwise it gives up there and the timers after it are skipped. */
  lemma {:induction false} SweepCompletesExactly(k: Kernel, t: Slabs, log: seq<Stream>, due: seq<int>)
    requires TablesOk(k, t, log) && Due(k, t, due)
    ensures Sweep(k, t, due).1 <==> Removable(k, t, due)
    decreases |due|
  {
    if due != [] && !(Stalled(t, t.timerFor[due[0]]) && t.timerFor[due[0]] !in k.reg) {
      FirstKeepsTables(k, t, log, due);
      var k1 := AfterFirst(k, t, due[0]);
      SweepCompletesExactly(k1, t, log, due[1..]);
      RemovableTail(k, t, log, due);
    }
  }

  lemma RemovableTail(k: Kernel, t: Slabs, log: seq<Stream>, due: seq<int>)
    requires TablesOk(k, t, log) && due != [] && Due(k, t, due) && Due(AfterFirst(k, t, due[0]), t, due[1..])
    requires Stalled(t, t.timerFor[due[0]]) ==> t.timerFor[due[0]] in k.reg
    requires forall f ::
      f in AfterFirst(k, t, due[0]).reg <==> f in k.reg && !(f == t.timerFor[due[0]] && Stalled(t, f))
    ensures Removable(k, t, due) <==> Removable(AfterFirst(k, t, due[0]), t, due[1..])
  {
    var k1, rest := AfterFirst(k, t, due[0]), due[1..];
    assert forall i | 0 <= i < |rest| :: rest[i] == due[i + 1];
    if Removable(k1, t, rest) {
      forall i | 0 <= i < |due| && Stalled(t, t.timerFor[due[i]]) ensures t.timerFor[due[i]] in k.reg {
        if i > 0 {
          assert rest[i - 1] == due[i];
        }
      }
      forall i, j | 0 <= i < j < |due| && Stalled(t, t.timerFor[due[j]])
        ensures t.timerFor[due[i]] != t.timerFor[due[j]]
      {
        assert rest[j - 1] == due[j];
        if i > 0 {
          assert rest[i - 1] == due[i];
        }
      }
    }
  }

  // ----- what a sweep closes -----

  /** A sweep only closes descriptors; those it leaves open keep their registrations and their arming. */
  lemma {:induction false} SweepOnlyCloses(k: Kernel, t: Slabs, due: seq<int>)
    requires t.Sized() && TimersInRange(t) && forall i | 0 <= i < |due| :: 0 <= due[i] < |t.timerFor|
    ensures var k' := Sweep(k, t, due).0;
      forall f :: f in k'.open ==>
        && f in k.open && (f in k'.reg <==> f in k.reg) && (f in k'.armed <==> f in k.armed)
        && (f in k'.timers <==> f in k.timers) && (f in k'.timersArmed <==> f in k.timersArmed)
    ensures k.InRange(|t.clients|) ==> Sweep(k, t, due).0.InRange(|t.clients|)
    decreases |due|
  {
    if due != [] {
      var fd := t.timerFor[due[0]];
      var k1 := if Stalled(t, fd) then k.Unregister(fd).Close(fd) else k;
      if !(Stalled(t, fd) && fd !in k.reg) && due[0] in k1.timers {
        SweepOnlyCloses(k1.Close(due[0]), t, due[1..]);
      }
    }
  }

  lemma {:induction false} SweepOnlyClosesKinds(k: Kernel, t: Slabs, due: seq<int>)
    requires t.Sized() && TimersInRange(t) && forall i | 0 <= i < |due| :: 0 <= due[i] < |t.timerFor|
    ensures var k' := Sweep(k, t, due).0;
      forall f :: f in k'.open ==> f in k.open && k'.open[f] == k.open[f]
    decreases |due|
  {
    if due != [] {
      var fd := t.timerFor[due[0]];
      var k1 := if Stalled(t, fd) then k.Unregister(fd).Close(fd) else k;
      if !(Stalled(t, fd) && fd !in k.reg) && due[0] in k1.timers {
        SweepOnlyClosesKinds(k1.Close(due[0]), t, due[1..]);
      }
    }
  }

  /** The sweep gets past due timer i. */
  ghost predicate Reached(k: Kernel, t: Slabs, due: seq<int>, i: int)
    requires t.Sized() && TimersInRange(t) && Due(k, t, due)
  {
    0 <= i < |due| && Removable(k, t, due[..i + 1])
  }

  /** Descriptor f is due timer i or the stalled connection it watches. */
  ghost predicate Target(t: Slabs, due: seq<int>, i: int, f: int)
    requires t.Sized() && TimersInRange(t) && 0 <= i < |due| && 0 <= due[i] < |t.timerFor|
  {
    f == due[i] || (f == t.timerFor[due[i]] && Stalled(t, f))
  }

  lemma ReachedTail(k: Kernel, t: Slabs, log: seq<Stream>, due: seq<int>, i: int)
    requires TablesOk(k, t, log) && due != [] && Due(k, t, due) && 0 < i < |due|
    requires Stalled(t, t.timerFor[due[0]]) ==> t.timerFor[due[0]] in k.reg
    ensures var k1 := AfterFirst(k, t, due[0]);
      Due(k1, t, due[1..]) && (Reached(k, t, due, i) <==> Reached(k1, t, due[1..], i - 1))
  {
    FirstKeepsTables(k, t, log, due);
    var prefix := due[..i + 1];
    FirstKeepsTables(k, t, log, prefix);
    RemovableTail(k, t, log, prefix);
    assert prefix[1..] == due[1..][..i];
  }

  /** A sweep closes the timers it gets past and the stalled connections they watch, and nothing else. */
  lemma {:induction false} SweepClosesExactly(k: Kernel, t: Slabs, log: seq<Stream>, due: seq<int>, f: int)
    requires TablesOk(k, t, log) && Due(k, t, due) && f in k.open
    ensures f !in Sweep(k, t, due).0.open <==> exists i :: Reached(k, t, due, i) && Target(t, due, i, f)
    decreases |due|
  {
    if due != [] {
      var fd := t.timerFor[due[0]];
      if Stalled(t, fd) && fd !in k.reg {
        forall i | 0 <= i < |due| ensures !Reached(k, t, due, i) {
          assert due[..i + 1][0] == due[0];
        }
      } else {
        FirstKeepsTables(k, t, log, due);
        var k1 := AfterFirst(k, t, due[0]);
        assert Reached(k, t, due, 0) by {
          assert due[..1] == [due[0]];
        }
        if f in k1.open {
          SweepClosesExactly(k1, t, log, due[1..], f);
          forall i | 0 < i < |due| ensures Reached(k, t, due, i) <==> Reached(k1, t, due[1..], i - 1) {
            ReachedTail(k, t, log, due, i);
          }
          assert !Target(t, due, 0, f);
          assert forall i | 0 < i < |due| :: Target(t, due, i, f) <==> Target(t, due[1..], i - 1, f);
          if i :| Reached(k1, t, due[1..], i) && Target(t, due[1..], i, f) {
            assert Reached(k, t, due, i + 1) && Target(t, due, i + 1, f);
          }
        } else {
          SweepOnlyCloses(k1, t, due[1..]);
          assert Target(t, due, 0, f);
        }
      }
    }
  }
}
