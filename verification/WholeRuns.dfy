/** The whole server gets on: as long as an event is queued or a task is being handled something can step,
    and a run from the start in which a connection is accepted. */
module WholeRuns {
  import opened Wrappers
  import opened Tally
  import opened RingBuffer
  import F = Fine
  import FR = FineRefinement
  import FineRuns
  import FineProgress
  import M = Monitor
  import opened Server
  import opened Dispatcher
  import opened Tokens
  import opened ServerRuns
  import opened WholeServer

  // ----- progress -----

  /** Locks are held by threads inside them, and no worker sleeps over ready work unsignalled. */
  ghost predicate Lively(p: F.State) { F.OwnersHold(p) && F.WorkConserving(p) }

  lemma PoolStaysLively(p: F.State, l: F.Label)
    requires FR.Calm(p) && Lively(p) && F.Enabled(p, l)
    ensures Lively(F.Apply(p, l))
  {
    hide F.OwnersHold, F.WorkConserving, F.ProducerApply, F.WorkerApply, M.Inv;
    if l.WorkerStep? && p.workers[l.w].WTestEmpty? {
      FR.NeverEmpty(p, l.w);
    }
    F.StepOwners(p, l);
    F.StepWakes(p, l);
  }

  lemma CallStaysLively(p: F.State, task: int)
    requires F.Shape(p) && Lively(p) && LoopOutside(p)
    ensures Lively(p.(producers := [F.Producer(F.PLockQueue, [task])]))
  {
    var p' := p.(producers := [F.Producer(F.PLockQueue, [task])]);
    forall m | F.Owner(p', m).Some? ensures F.Inside(p', F.Owner(p', m).value, m) {
      assert F.Inside(p, F.Owner(p, m).value, m);
    }
    assert F.SomeoneSleeps(p') == F.SomeoneSleeps(p);
    SumUniform(p.producers, F.PendingWeight, 0);
    SumUniform(p'.producers, F.PendingWeight, 0);
  }

  lemma StepStaysLively(x: Whole, st: Step, k: nat)
    requires WholeInv(x, k) && Lively(x.pool) && CanStep(x, st)
    ensures Lively(After(x, st).pool)
  {
    hide SlabInv, TokenInv, FR.Calm, Lively, Apply, Enabled;
    match st
    case Call => CallStaysLively(x.pool, x.base.batch[0]);
    case Pool(l) => PoolStaysLively(x.pool, l);
    case Outside(d) =>
  }

  /** Something is queued or being handled. */
  ghost predicate Busy(x: Whole)
    requires OneProducer(x.pool) && x.pool.ring.Valid()
  {
    || View(x).batch != [] || x.pool.ring.Contents() != []
    || exists w :: 0 <= w < |x.base.workers| && x.base.workers[w] != Idle
  }

  /** A worker in its job with a handler that is not done can take a step of process_task. */
  lemma HandlerCanStep(x: Whole, k: nat, w: nat, a: int, b: int) returns (st: Step)
    requires WholeInv(x, k) && RunsJob(x.pool, w) && x.base.workers[w] != Idle
    requires Fresh(View(x), a) && Fresh(View(x), b) && a != b
    ensures CanStep(x, st) && QuietWhole(x, st)
  {
    hide TablesOk, HandlerOk, TokenInv, FR.Calm;
    var s := View(x);
    match s.workers[w]
    case Started(fd) =>
      if fd == s.listener {
        st := Outside(Accept(w, a, b));
      } else if !Known(s.slabs, fd) {
        st := Outside(Ignore(w));
      } else if CopyOf(s.slabs, fd).state == New {
        st := Outside(Greet(w, None, a));
      } else {
        st := Outside(ReadFails(w));
      }
    case Writing(_, _, _, _, _) => st := Outside(Write(w));
    case Rearming(_, _) => st := Outside(Rearm(w));
    case Storing(_) => st := Outside(StoreBack(w));
  }

  /** With the pool at rest, the event loop can go on. */
  lemma LoopCanStep(x: Whole, k: nat) returns (st: Step)
    requires WholeInv(x, k) && LoopOutside(x.pool) && x.base.batch != []
    ensures CanStep(x, st) && QuietWhole(x, st)
  {
    hide TablesOk, HandlerOk, TokenInv, FR.Calm;
    if x.base.batch[0] != x.base.timerUnit {
      st := Call;
    } else {
      st := Outside(SweepTimers([]));
      assert View(x).batch == x.base.batch;
    }
  }

  /** A pool at rest has an empty ring. */
  lemma RestIsEmpty(p: F.State)
    requires FR.Calm(p) && F.WorkConserving(p) && |p.workers| >= 1
    requires forall w: nat | w < |p.workers| :: p.workers[w] == F.WTaskSleep
    requires forall i: nat | i < |p.producers| :: p.producers[i].at == F.PLockQueue
    ensures p.ring.Contents() == []
  {
    assert p.workers[0] == F.WTaskSleep;
    SumUniform(p.workers, F.AwakeWeight, 0);
    SumUniform(p.producers, F.PendingWeight, 0);
    var m := FR.Abs(p);
    SumUniform(m.producers, M.StoredWeight, 0);
    SumUniform(m.workers, M.HoldingWeight, 0);
  }

  /** If no worker is in its job with work to do, some step of the pool is possible or the pool rests. */
  lemma RestOrStep(x: Whole, k: nat) returns (st: Step)
    requires WholeInv(x, k) && Lively(x.pool)
    requires forall w: nat | RunsJob(x.pool, w) :: x.base.workers[w] == Idle
    ensures (CanStep(x, st) && QuietWhole(x, st)) || FineProgress.Stuck(x.pool)
  {
    hide TablesOk, HandlerOk, TokenInv, SlabInv, FR.Calm;
    st := Call;
    if l :| !FineProgress.Spurious(l) && F.Enabled(x.pool, l) {
      st := Pool(l);
    }
  }

  /** In a safe regime with two free descriptor numbers, a busy whole can step quietly. */
  lemma BusyCanStep(x: Whole, k: nat, a: int, b: int) returns (st: Step)
    requires WholeInv(x, k) && Lively(x.pool) && |x.pool.workers| >= 1 && Busy(x)
    requires Fresh(View(x), a) && Fresh(View(x), b) && a != b
    ensures CanStep(x, st) && QuietWhole(x, st)
  {
    hide SlabInv, TokenInv, FR.Calm, F.OwnersHold, F.WorkConserving, CanStep, QuietWhole;
    if w: nat :| RunsJob(x.pool, w) && x.base.workers[w] != Idle {
      st := HandlerCanStep(x, k, w, a, b);
    } else {
      st := RestOrStep(x, k);
      if FineProgress.Stuck(x.pool) {
        FineProgress.StuckRests(x.pool);
        RestIsEmpty(x.pool);
        HandlersRest(x, k);
        st := LoopCanStep(x, k);
      }
    }
  }

  lemma HandlersRest(x: Whole, k: nat)
    requires PoolInv(x, k) && forall w: nat | w < |x.pool.workers| :: x.pool.workers[w] == F.WTaskSleep
    ensures forall w | 0 <= w < |x.base.workers| :: x.base.workers[w] == Idle
  {
    hide FR.Calm;
    forall w | 0 <= w < |x.base.workers| ensures x.base.workers[w] == Idle {
      assert InStep(x.pool.workers[w], x.base.workers[w]);
    }
  }

  lemma {:induction false} RunInv(x: Whole, sts: seq<Step>, k: nat)
    requires WholeInv(x, k) && Lively(x.pool) && WholeRun(x, sts, k)
    ensures WholeInv(WholeExec(x, sts, k), k) && Lively(WholeExec(x, sts, k).pool)
    ensures |WholeExec(x, sts, k).pool.workers| == |x.pool.workers|
    decreases |sts|
  {
    hide PoolInv, SlabInv, TokenInv, Lively, CanStep, After, View;
    if sts != [] {
      StepRefines(x, sts[0], k);
      StepStaysLively(x, sts[0], k);
      StepKeepsWorkers(x, sts[0]);
      RunInv(After(x, sts[0]), sts[1..], k);
    }
  }

  lemma StepKeepsWorkers(x: Whole, st: Step)
    requires OneProducer(x.pool) && F.Shape(x.pool) && Shape(View(x)) && CanStep(x, st)
    ensures |After(x, st).pool.workers| == |x.pool.workers|
  {
    if st.Pool? {
      F.StepShape(x.pool, st.l);
    }
  }

  /** In every whole run in a safe regime: as long as an event is queued, or a worker has a task, and two
      descriptor numbers are free, some step is possible that is quiet outside the pool. */
  lemma {:induction false} WholeNeverStuck(x: Whole, sts: seq<Step>, k: nat, a: int, b: int) returns (st: Step)
    requires WholeInit(x) && WholeRun(x, sts, k) && k <= x.pool.ring.Size() - 2
    requires FR.Safe(x.pool.ring.Size(), |x.pool.workers|, k)
    requires var y := WholeExec(x, sts, k);
      OneProducer(y.pool) && y.pool.ring.Valid() && Busy(y) && Fresh(View(y), a) && Fresh(View(y), b) && a != b
    ensures var y := WholeExec(x, sts, k);
      F.Shape(y.pool) && Shape(View(y)) && CanStep(y, st) && QuietWhole(y, st)
  {
    WholeInitInv(x, k);
    FineProgress.InitOwners(x.pool);
    assert !F.SomeoneSleeps(x.pool);
    RunInv(x, sts, k);
    st := BusyCanStep(WholeExec(x, sts, k), k, a, b);
  }

  // ----- a run of the whole -----

  ghost predicate InRange(x: Whole, k: nat) {
    OneProducer(x.pool) && F.Shape(x.pool) && Shape(View(x)) && FR.Holds(x.pool, k)
  }

  /** Some whole run, quiet outside the pool, with at most k tasks in the ring, leads from x to y. */
  ghost predicate Leads(x: Whole, y: Whole, k: nat) {
    exists sts :: WholeRun(x, sts, k) && WholeExec(x, sts, k) == y
  }

  lemma LeadsSelf(x: Whole, k: nat)
    requires InRange(x, k)
    ensures Leads(x, x, k)
  {
    assert WholeRun(x, [], k) && WholeExec(x, [], k) == x;
  }

  lemma {:induction false} RunConcat(x: Whole, a: seq<Step>, b: seq<Step>, k: nat)
    requires WholeRun(x, a, k) && WholeRun(WholeExec(x, a, k), b, k)
    ensures WholeRun(x, a + b, k) && WholeExec(x, a + b, k) == WholeExec(WholeExec(x, a, k), b, k)
    decreases |a|
  {
    hide CanStep, QuietWhole, After, View, FR.Holds;
    if a == [] {
      assert a + b == b;
    } else {
      RunConcat(After(x, a[0]), a[1..], b, k);
      assert (a + b)[1..] == a[1..] + b;
    }
  }

  lemma LeadsOn(x: Whole, y: Whole, z: Whole, k: nat)
    requires Leads(x, y, k) && Leads(y, z, k)
    ensures Leads(x, z, k)
  {
    hide WholeRun, WholeExec;
    var a :| WholeRun(x, a, k) && WholeExec(x, a, k) == y;
    var b :| WholeRun(y, b, k) && WholeExec(y, b, k) == z;
    RunConcat(x, a, b, k);
  }

  lemma LeadsOne(x: Whole, st: Step, k: nat)
    requires InRange(x, k) && CanStep(x, st) && QuietWhole(x, st) && InRange(After(x, st), k)
    ensures Leads(x, After(x, st), k)
  {
    assert [st][1..] == [];
    assert WholeRun(x, [st], k) && WholeExec(x, [st], k) == After(x, st);
  }

  /** Steps of the pool grow the histories of dequeues and finished jobs only at those two places. */
  lemma StepGrows(p: F.State, l: F.Label)
    requires F.Shape(p) && F.Enabled(p, l)
    ensures var p' := F.Apply(p, l);
      && p.taken <= p'.taken && p.done <= p'.done
      && |p'.taken| == |p.taken| + (if l.WorkerStep? && p.workers[l.w].WMoveFront? then 1 else 0)
      && |p'.done| == |p.done| + (if l.WorkerStep? && p.workers[l.w].WRunJob? then 1 else 0)
  {
  }

  lemma {:induction false} LeadsGrows(p: F.State, ls: seq<F.Label>, p': F.State, k: nat)
    requires FineRuns.Leads(p, ls, p', k)
    ensures p.taken <= p'.taken && p.done <= p'.done
    decreases |ls|
  {
    hide F.Apply, F.Enabled, F.Shape;
    if ls != [] {
      StepGrows(p, ls[0]);
      LeadsGrows(F.Apply(p, ls[0]), ls[1..], p', k);
    }
  }

  /** A run of the pool in which nothing is dequeued and no job ends is one of the whole. */
  lemma {:induction false} LiftPool(x: Whole, ls: seq<F.Label>, p': F.State, k: nat)
    requires InRange(x, k) && |x.base.workers| == |x.pool.workers|
    requires FineRuns.Leads(x.pool, ls, p', k) && p'.taken == x.pool.taken && p'.done == x.pool.done
    ensures Leads(x, Whole(x.base, p'), k)
    decreases |ls|
  {
    hide F.Apply, F.Shape, Leads;
    if ls == [] {
      LeadsSelf(x, k);
    } else {
      var p1 := F.Apply(x.pool, ls[0]);
      StepGrows(x.pool, ls[0]);
      LeadsGrows(p1, ls[1..], p', k);
      F.StepShape(x.pool, ls[0]);
      LeadsOne(x, Pool(ls[0]), k);
      LiftPool(Whole(x.base, p1), ls[1..], p', k);
      LeadsOn(x, Whole(x.base, p1), Whole(x.base, p'), k);
    }
  }

  lemma LiftReach(x: Whole, p': F.State, k: nat)
    requires InRange(x, k) && |x.base.workers| == |x.pool.workers|
    requires FineRuns.Reach(x.pool, p', k) && p'.taken == x.pool.taken && p'.done == x.pool.done
    ensures Leads(x, Whole(x.base, p'), k)
  {
    var ls :| FineRuns.Leads(x.pool, ls, p', k);
    LiftPool(x, ls, p', k);
  }

  /** The worker's part of a dequeue after the front has moved, the flag being down: it tests the flag. */
  lemma LeaveQueue(p: F.State, w: nat, task: int, k: nat)
    requires F.Shape(p) && FR.Holds(p, k) && w < |p.workers| && p.workers[w] == F.WUnlockQueue(task)
    requires p.flagLock == None
    ensures var p' := p.(workers := p.workers[w := F.WTestFlag(task)], queueLock := None, flagLock := Some(F.Work(w)));
      FineRuns.Reach(p, p', k) && F.Shape(p') && FR.Holds(p', k)
  {
    hide FineRuns.Reach;
    FineRuns.ReachSelf(p, k);
    var p1 := FineRuns.Then(p, p, F.WorkerStep(w, None), k);
    var p2 := FineRuns.Then(p, p1, F.WorkerStep(w, None), k);
    assert p2.workers == p.workers[w := F.WTestFlag(task)];
  }

  /** And it goes on to the job. */
  lemma LeaveFlag(p: F.State, w: nat, task: int, k: nat)
    requires F.Shape(p) && FR.Holds(p, k) && w < |p.workers| && p.workers[w] == F.WTestFlag(task) && task != 0
    requires p.ring.fullFlag == 0
    ensures var p' := p.(workers := p.workers[w := F.WRunJob(task)], flagLock := None);
      FineRuns.Reach(p, p', k) && F.Shape(p') && FR.Holds(p', k)
  {
    hide FineRuns.Reach;
    FineRuns.ReachSelf(p, k);
    var p1 := FineRuns.Then(p, p, F.WorkerStep(w, None), k);
    var p2 := FineRuns.Then(p, p1, F.WorkerStep(w, None), k);
    assert p2.workers == p.workers[w := F.WRunJob(task)];
  }

  lemma LeaveDequeue(p: F.State, w: nat, task: int, k: nat)
    requires F.Shape(p) && FR.Holds(p, k) && w < |p.workers| && p.workers[w] == F.WUnlockQueue(task) && task != 0
    requires p.ring.fullFlag == 0 && p.flagLock == None
    ensures var p' := p.(workers := p.workers[w := F.WRunJob(task)], queueLock := None);
      FineRuns.Reach(p, p', k) && F.Shape(p') && FR.Holds(p', k)
  {
    hide FineRuns.Reach, F.Shape, FR.Holds;
    LeaveQueue(p, w, task, k);
    var p1 := p.(workers := p.workers[w := F.WTestFlag(task)], queueLock := None, flagLock := Some(F.Work(w)));
    LeaveFlag(p1, w, task, k);
    var p' := p.(workers := p.workers[w := F.WRunJob(task)], queueLock := None);
    assert p'.workers == p1.workers[w := F.WRunJob(task)];
    FineRuns.ReachTrans(p, p1, p', k);
  }

  /** The whole server at its start. */
  function StartWhole(size: nat, max: nat, workers: nat): Whole {
    Whole(Start(size, max, workers), FineRuns.Start(size, [[]], workers, false))
  }

  lemma StartIsWholeInit(size: nat, max: nat, workers: nat)
    requires size >= 4 && max >= 5 && workers >= 1
    ensures WholeInit(StartWhole(size, max, workers)) && InRange(StartWhole(size, max, workers), 1)
  {
    var x := StartWhole(size, max, workers);
    StartIsInit(size, max, workers);
    FineRuns.StartIsInit(size, [[]], workers, false);
    assert x.pool.producers == [F.Producer(F.PLockQueue, [])];
    assert View(x).batch == [];
    assert View(x) == x.base;
  }

  /** The listener's event is reported and handed to the pool's producer. */
  lemma CallWithListener(x: Whole) returns (y: Whole)
    requires InRange(x, 1) && LoopOutside(x.pool) && x.base.batch == []
    requires x.base.listener in x.base.kernel.armed && x.base.listener != x.base.timerUnit
    ensures Leads(x, y, 1) && InRange(y, 1)
    ensures y.pool == x.pool.(producers := [F.Producer(F.PLockQueue, [x.base.listener])])
    ensures y.base.batch == [] && y.base.workers == x.base.workers && y.base.kernel.open == x.base.kernel.open
    ensures y.base.listener == x.base.listener && Max(y.base) == Max(x.base)
  {
    hide Leads;
    var l := x.base.listener;
    assert View(x).batch == [];
    var x1 := After(x, Outside(EpollWait([l])));
    assert View(x1).batch == [l];
    LeadsOne(x, Outside(EpollWait([l])), 1);
    y := After(x1, Call);
    assert View(y).batch == [l];
    LeadsOne(x1, Call, 1);
    LeadsOn(x, x1, y, 1);
  }

  /** The producer adds the task. */
  lemma AddOne(p: F.State, task: int) returns (p': F.State)
    requires F.Shape(p) && FR.Holds(p, 1) && p.producers == [F.Producer(F.PLockQueue, [task])]
    requires p.ring.Contents() == [] && p.ring.fullFlag == 0 && FineRuns.NobodySleeps(p)
    requires p.queueLock == p.flagLock == p.readyLock == None
    ensures FineRuns.Reach(p, p', 1) && F.Shape(p') && FR.Holds(p', 1) && p'.ring.Contents() == [task]
    ensures p'.ring.fullFlag == 0 && p' == p.(ring := p'.ring, producers := [F.Producer(F.PLockQueue, [])],
                                             ready := p.ready + 1, stored := p.stored + [task])
  {
    hide FineRuns.Reach;
    var ring := p.ring.Store(task);
    OccupancyBounds(p.ring);
    FineRuns.AddOnce(p, 0, 1);
    p' := p.(ring := ring, producers := [F.Producer(F.PLockQueue, [])], ready := p.ready + 1,
             stored := p.stored + [task]);
    assert [task][1..] == [];
    assert FineRuns.Added(p, 0).producers == p'.producers;
    assert [] + [task] == [task];
    OccupancyBounds(ring);
  }

  /** Worker 0 takes the token and reads the task. */
  lemma ReadOne(p: F.State, task: int)
    requires F.Shape(p) && FR.Holds(p, 1) && p.ring.Contents() == [task] && p.ready == 1
    requires p.queueLock == p.readyLock == None && |p.workers| >= 1 && p.workers[0] == F.WLockReady
    ensures var p' := p.(workers := p.workers[0 := F.WMoveFront(p.ring.front, task)], ready := 0,
                         queueLock := Some(F.Work(0)));
      FineRuns.Reach(p, p', 1) && F.Shape(p') && FR.Holds(p', 1)
  {
    hide FineRuns.Reach;
    var f := p.ring.front;
    OccupancyBounds(p.ring);
    DropTakesHead(p.ring);
    assert p.ring.Contents()[0] == task;
    FineRuns.TakeToken(p, 0, 1);
    var p1 := F.WMove(p, 0, F.WLockQueue(f)).(ready := 0);
    FineRuns.LockAndRead(p1, 0, f, 1);
    var p' := F.WMove(p1, 0, F.WMoveFront(f, task)).(queueLock := Some(F.Work(0)));
    FineRuns.ReachTrans(p, p1, p', 1);
    assert p'.workers == p.workers[0 := F.WMoveFront(f, task)];
  }

  /** The producer adds the task and worker 0 gets to the move of the front. */
  lemma AddAndRead(p: F.State, task: int) returns (p': F.State)
    requires F.Shape(p) && FR.Holds(p, 1) && p.producers == [F.Producer(F.PLockQueue, [task])] && |p.workers| >= 1
    requires p.ring.Contents() == [] && p.ring.fullFlag == 0 && p.ready == 0
    requires p.queueLock == p.flagLock == p.readyLock == None
    requires forall w | 0 <= w < |p.workers| :: p.workers[w] == F.WLockReady
    ensures FineRuns.Reach(p, p', 1) && F.Shape(p') && FR.Holds(p', 1) && p'.taken == p.taken && p'.done == p.done
    ensures p'.workers == p.workers[0 := F.WMoveFront(p'.ring.front, task)]
    ensures p'.ring.Contents() == [task] && p'.ring.fullFlag == 0 && p'.flagLock == None
    ensures p'.producers == [F.Producer(F.PLockQueue, [])]
  {
    hide FineRuns.Reach;
    var p1 := AddOne(p, task);
    ReadOne(p1, task);
    p' := p1.(workers := p1.workers[0 := F.WMoveFront(p1.ring.front, task)], ready := 0, queueLock := Some(F.Work(0)));
    FineRuns.ReachTrans(p, p1, p', 1);
  }

  /** The pool after worker 0 has moved the front past the only task. */
  function FrontMoved(p: F.State, task: int): F.State
    requires |p.workers| >= 1 && 0 <= p.ring.front < |p.ring.slots|
  {
    p.(workers := p.workers[0 := F.WUnlockQueue(task)], ring := p.ring.Drop(), taken := p.taken + [task])
  }

  lemma MoveFront(p: F.State, task: int)
    requires F.Shape(p) && |p.workers| >= 1 && p.workers[0] == F.WMoveFront(p.ring.front, task)
    requires p.ring.Contents() == [task] && p.ring.fullFlag == 0
    ensures F.Enabled(p, F.WorkerStep(0, None)) && F.Apply(p, F.WorkerStep(0, None)) == FrontMoved(p, task)
    ensures F.Shape(FrontMoved(p, task)) && FR.Holds(FrontMoved(p, task), 1)
  {
    F.StepShape(p, F.WorkerStep(0, None));
    OccupancyBounds(p.ring);
    DropTakesHead(p.ring);
  }

  /** Worker 0 takes the task. */
  lemma TakeTask(x: Whole, task: int) returns (y: Whole)
    requires InRange(x, 1) && LoopOutside(x.pool) && |x.base.workers| == |x.pool.workers| >= 1 && task != 0
    requires x.pool.workers[0] == F.WMoveFront(x.pool.ring.front, task) && x.pool.ring.Contents() == [task]
    requires x.pool.ring.fullFlag == 0
    ensures Leads(x, y, 1) && InRange(y, 1)
    ensures y == Whole(x.base.(workers := x.base.workers[0 := Started(task)]), FrontMoved(x.pool, task))
  {
    hide Leads, F.Shape, F.Apply, F.Enabled;
    MoveFront(x.pool, task);
    y := After(x, Pool(F.WorkerStep(0, None)));
    LeadsOne(x, Pool(F.WorkerStep(0, None)), 1);
  }

  /** Worker 0 takes the task and starts process_task on it. */
  lemma TakeAndStart(x: Whole, task: int) returns (y: Whole)
    requires InRange(x, 1) && LoopOutside(x.pool) && |x.base.workers| == |x.pool.workers| >= 1 && task != 0
    requires x.pool.workers[0] == F.WMoveFront(x.pool.ring.front, task) && x.pool.ring.Contents() == [task]
    requires x.pool.ring.fullFlag == 0 && x.pool.flagLock == None
    ensures Leads(x, y, 1) && InRange(y, 1) && RunsJob(y.pool, 0)
    ensures y.base == x.base.(workers := x.base.workers[0 := Started(task)])
  {
    hide Leads, F.Shape, Shape, FR.Holds, FineRuns.Reach;
    var x1 := TakeTask(x, task);
    LeaveDequeue(x1.pool, 0, task, 1);
    var p' := x1.pool.(workers := x1.pool.workers[0 := F.WRunJob(task)], queueLock := None);
    LiftReach(x1, p', 1);
    y := Whole(x1.base, p');
    SameView(x1, y);
    LeadsOn(x, x1, y, 1);
  }

  lemma SameView(x: Whole, y: Whole)
    requires OneProducer(x.pool) && Shape(View(x))
    requires y.base == x.base && y.pool.producers == x.pool.producers && y.pool.ring == x.pool.ring
    ensures OneProducer(y.pool) && Shape(View(y))
  {
  }

  /** For every ring size, number of workers and table of five descriptors or more, a run of the whole
      server accepts a connection. */
  lemma AcceptingRun(size: nat, max: nat, workers: nat) returns (x: Whole, y: Whole)
    requires size >= 4 && max >= 5 && workers >= 1
    ensures WholeInit(x) && x.pool.ring.Size() == size && Max(x.base) == max && |x.pool.workers| == workers
    ensures Leads(x, y, 1) && 3 in y.base.kernel.open && y.base.kernel.open[3] == Socket
  {
    hide Leads, FineRuns.Reach;
    x := StartWhole(size, max, workers);
    StartIsWholeInit(size, max, workers);
    var x1 := CallWithListener(x);
    var p2 := AddAndRead(x1.pool, LISTENER);
    LiftReach(x1, p2, 1);
    var x2 := Whole(x1.base, p2);
    LeadsOn(x, x1, x2, 1);
    var x3 := TakeAndStart(x2, LISTENER);
    LeadsOn(x, x2, x3, 1);
    y := AcceptAtLast(x3);
    LeadsOn(x, x3, y, 1);
  }

  lemma AcceptAtLast(x: Whole) returns (y: Whole)
    requires InRange(x, 1) && RunsJob(x.pool, 0) && Is(x.base, 0, Started(x.base.listener)) && Max(x.base) >= 5
    requires 3 !in x.base.kernel.open && 4 !in x.base.kernel.open
    ensures Leads(x, y, 1) && 3 in y.base.kernel.open && y.base.kernel.open[3] == Socket
  {
    var d := Accept(0, 3, 4);
    AcceptShape(View(x), 0, 3, 4);
    y := After(x, Outside(d));
    LeadsOne(x, Outside(d), 1);
  }
}
