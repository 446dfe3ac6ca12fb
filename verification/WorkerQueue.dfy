/** The pool's queue structure as the code keeps it, updated in place. Each method carries out one step
    of the monitor-level pool; where the code takes two critical sections for it (the flag test and the
    store, the move of the front and the flag), the method runs them as one. */
module WorkerQueue {
  import opened Wrappers
  import opened RingBuffer
  import M = Monitor

  class WorkerQueue {
    var front: int
    var back: int
    var queueArray: array<int>
    var size: int
    var qFullFlag: int
    var procRdyFlag: int

    ghost predicate Valid()
      reads this, queueArray
    {
      queueArray.Length == size && View().Valid()
    }

    ghost function View(): Ring
      reads this, queueArray
    {
      Ring(queueArray[..], front, back, qFullFlag)
    }

    /** The structure holds the ring and the ready counter of pool state s. */
    ghost predicate Mirrors(s: M.State)
      reads this, queueArray
    {
      Valid() && s.ring == View() && s.ready == procRdyFlag
    }

    /** An empty queue of four slots for each thread; a host has at least one processor. */
    constructor (numThreads: int)
      requires numThreads >= 1
      ensures Valid() && fresh(queueArray)
      ensures size == TASKS_PER_THREAD * numThreads
      ensures View().Contents() == [] && View().FlagExact()
      ensures forall s | M.Init(s) && s.ring == View() :: Mirrors(s)
    {
      front, back, procRdyFlag, qFullFlag := 0, 0, 0, 0;
      size := TASKS_PER_THREAD * numThreads;
      queueArray := new int[TASKS_PER_THREAD * numThreads];
    }

    method AddTaskToQueue(newtask: int) returns (r: int)
      requires Valid()
      modifies this`back, this`qFullFlag, queueArray
      ensures Valid() && r == 1
      ensures View() == old(View()).Store(newtask)
      ensures !old(View().Full()) ==> View().Contents() == old(View().Contents()) + [newtask]
      ensures old(View().FlagExact() && !View().Full()) ==> View().FlagExact()
    {
      StoreAppends(View(), newtask);
      var b := back;
      queueArray[b] := newtask;
      b := Next(b, size);
      back := b;
      if Next(b, size) == front {
        qFullFlag := qFullFlag + 1;
      }
      assert queueArray[..] == old(queueArray[..])[old(back) := newtask];
      r := 1;
    }

    /** Check full, then store: false says the caller has to wait, and nothing has changed. */
    method TryAdd(newtask: int, ghost s: M.State, ghost p: nat) returns (stored: bool)
      requires Mirrors(s) && M.Enabled(s, M.Add(p)) && newtask == s.producers[p].todo[0]
      modifies this`back, this`qFullFlag, queueArray
      ensures Mirrors(M.Apply(s, M.Add(p)))
      ensures stored <==> M.Apply(s, M.Add(p)).producers[p].phase == M.Stored
      ensures !stored ==> View() == old(View())
      ensures old(View().FlagExact()) ==> (stored <==> |old(View().Contents())| < size - 1)
      ensures old(View().FlagExact()) && stored ==> View().Contents() == old(View().Contents()) + [newtask]
    {
      OccupancyBounds(View());
      stored := qFullFlag <= 0;
      if stored {
        var _ := AddTaskToQueue(newtask);
      }
    }

    method CountTask(ghost s: M.State, ghost p: nat)
      requires Mirrors(s) && M.Enabled(s, M.Raise(p))
      modifies this`procRdyFlag
      ensures Mirrors(M.Apply(s, M.Raise(p)))
    {
      procRdyFlag := procRdyFlag + 1;
    }

    /** A worker's check: it has a token, or has to sleep. */
    method TakeToken(ghost s: M.State, ghost w: nat) returns (taken: bool)
      requires Mirrors(s) && M.Enabled(s, M.Check(w))
      modifies this`procRdyFlag
      ensures Mirrors(M.Apply(s, M.Check(w)))
      ensures M.Apply(s, M.Check(w)).workers[w] == if taken then M.Holding else M.Asleep
    {
      taken := procRdyFlag > 0;
      if taken {
        procRdyFlag := procRdyFlag - 1;
      }
    }

    /** The oldest task, or none with the queue lock kept when the ring is empty; `signalled` says that
        a waiting producer was to be woken. */
    method Dequeue(ghost s: M.State, ghost w: nat, ghost wake: Option<nat>)
      returns (job: int, keptLock: bool, signalled: bool)
      requires Mirrors(s) && M.Enabled(s, M.Dequeue(w, wake))
      modifies this`front, this`qFullFlag
      ensures Mirrors(M.Apply(s, M.Dequeue(w, wake)))
      ensures keptLock == M.Apply(s, M.Dequeue(w, wake)).lockKept
      ensures keptLock <==> old(View().Contents()) == []
      ensures keptLock ==> job == 0 && !signalled && View() == old(View())
      ensures !keptLock ==> old(View().Contents()) == [job] + View().Contents()
      ensures !keptLock ==> M.Apply(s, M.Dequeue(w, wake)).taken == s.taken + [job]
      ensures signalled <==> !keptLock && old(qFullFlag) > 0
      ensures wake.Some? ==> signalled
    {
      OccupancyBounds(View());
      var f := front;
      if front == back {
        return 0, true, false;
      }
      DropTakesHead(View());
      job := queueArray[f];
      front := Next(f, size);
      keptLock, signalled := false, false;
      if qFullFlag > 0 {
        qFullFlag := qFullFlag - 1;
        signalled := true;
      }
    }
  }
}
