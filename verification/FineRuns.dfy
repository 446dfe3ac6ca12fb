/** Runs of the code as written that leave the safe regimes, built for every ring size, and with them
    the exact conditions for first-in-first-out order and for freedom from lock cycles. */
module FineRuns {
  import opened Wrappers
  import opened RingBuffer
  import opened Fine
  import opened FineRefinement

  // ----- reachability with at most k tasks in the ring -----

  /** The labels ls lead from s to s' through states with at most k tasks in the ring. */
  ghost predicate Leads(s: State, ls: seq<Label>, s': State, k: nat)
    decreases |ls|
  {
    && Shape(s) && Holds(s, k)
    && if ls == [] then s' == s else Enabled(s, ls[0]) && Leads(Apply(s, ls[0]), ls[1..], s', k)
  }

  ghost predicate Reach(s: State, s': State, k: nat) {
    exists ls :: Leads(s, ls, s', k)
  }

  lemma {:induction false} LeadsIsRun(s: State, ls: seq<Label>, s': State, j: nat, k: nat)
    requires Leads(s, ls, s', j) && j <= k
    ensures CanRun(s, ls) && Exec(s, ls) == s' && BoundedRun(s, ls, k)
    decreases |ls|
  {
    if ls != [] {
      LeadsIsRun(Apply(s, ls[0]), ls[1..], s', j, k);
    }
  }

  lemma ReachSelf(s: State, k: nat)
    requires Shape(s) && Holds(s, k)
    ensures Reach(s, s, k)
  {
    assert Leads(s, [], s, k);
  }

  lemma ReachStep(s: State, l: Label, k: nat)
    requires Shape(s) && Holds(s, k) && Enabled(s, l) && Holds(Apply(s, l), k)
    ensures Reach(s, Apply(s, l), k) && Shape(Apply(s, l))
  {
    StepShape(s, l);
    assert [l][1..] == [];
    assert Leads(s, [l], Apply(s, l), k);
  }

  lemma LeadsStep(s: State, l: Label, rest: seq<Label>, s': State, k: nat)
    requires Shape(s) && Holds(s, k) && Enabled(s, l) && Leads(Apply(s, l), rest, s', k)
    ensures Leads(s, [l] + rest, s', k)
  {
    assert ([l] + rest)[1..] == rest;
  }

  lemma {:induction false} LeadsConcat(a: State, x: seq<Label>, b: State, y: seq<Label>, c: State, k: nat)
    requires Leads(a, x, b, k) && Leads(b, y, c, k)
    ensures Leads(a, x + y, c, k)
    decreases |x|
  {
    hide Apply, Enabled, Shape, Holds;
    if x == [] {
      assert x + y == y;
    } else {
      LeadsConcat(Apply(a, x[0]), x[1..], b, y, c, k);
      LeadsStep(a, x[0], x[1..] + y, c, k);
      assert x + y == [x[0]] + (x[1..] + y);
    }
  }

  lemma ReachTrans(a: State, b: State, c: State, k: nat)
    requires Reach(a, b, k) && Reach(b, c, k)
    ensures Reach(a, c, k)
  {
    var x :| Leads(a, x, b, k);
    var y :| Leads(b, y, c, k);
    LeadsConcat(a, x, b, y, c, k);
  }

  /** One more step of thread t, with nobody to wake, at the end of a run from a to s. */
  lemma Then(a: State, s: State, l: Label, k: nat) returns (s': State)
    requires Reach(a, s, k) && Shape(s) && Holds(s, k) && Enabled(s, l) && Holds(Apply(s, l), k)
    ensures s' == Apply(s, l) && Reach(a, s', k) && Shape(s') && Holds(s', k)
  {
    s' := Apply(s, l);
    ReachStep(s, l, k);
    ReachTrans(a, s, s', k);
  }

  // ----- stretches of a producer -----

  ghost predicate NobodySleeps(s: State) {
    forall w | 0 <= w < |s.workers| :: s.workers[w] != WTaskSleep
  }

  /** Producer p is about to add a task and nobody holds a lock. */
  ghost predicate AddReady(s: State, p: nat, k: nat) {
    && Shape(s) && Holds(s, k)
    && p < |s.producers| && s.producers[p].at == PLockQueue && s.producers[p].todo != []
    && s.queueLock == s.flagLock == s.readyLock == None
  }

  /** With the flag down the producer gets to its store. */
  lemma Enter(s: State, p: nat, k: nat)
    requires AddReady(s, p, k) && s.ring.fullFlag == 0
    ensures var s' := PMove(s, p, PStoreTask).(queueLock := Some(Prod(p)));
      Reach(s, s', k) && Shape(s') && Holds(s', k)
  {
    hide Reach;
    ReachSelf(s, k);
    var s' := Then(s, s, ProducerStep(p, None), k);
    s' := Then(s, s', ProducerStep(p, None), k);
    s' := Then(s, s', ProducerStep(p, None), k);
    s' := Then(s, s', ProducerStep(p, None), k);
    assert s'.producers == PMove(s, p, PStoreTask).producers;
    assert s' == PMove(s, p, PStoreTask).(queueLock := Some(Prod(p)));
  }

  /** n steps of producer p, waking nobody. */
  function OwnSteps(p: nat, n: nat): seq<Label> {
    seq(n, i => ProducerStep(p, None))
  }

  lemma OwnStep(s: State, p: nat, n: nat, s': State, k: nat)
    requires Shape(s) && Holds(s, k) && Enabled(s, ProducerStep(p, None))
    requires Leads(Apply(s, ProducerStep(p, None)), OwnSteps(p, n), s', k)
    ensures Leads(s, OwnSteps(p, n + 1), s', k)
  {
    hide Leads;
    LeadsStep(s, ProducerStep(p, None), OwnSteps(p, n), s', k);
    assert OwnSteps(p, n + 1) == [ProducerStep(p, None)] + OwnSteps(p, n);
  }

  lemma LeadsNothing(s: State, p: nat, k: nat)
    requires Shape(s) && Holds(s, k)
    ensures Leads(s, OwnSteps(p, 0), s, k)
  {
  }

  /** Producer p has both locks and is at its test of the flag. */
  function AtTest(s: State, p: nat): State
    requires p < |s.producers|
  {
    PMove(s, p, PTestFlag).(queueLock := Some(Prod(p)), flagLock := Some(Prod(p)))
  }

  lemma RelockBoth(s: State, p: nat, k: nat)
    requires Shape(s) && Holds(s, k) && p < |s.producers| && s.producers[p].at == PRelockFlag
    requires s.queueLock == s.flagLock == None
    ensures Leads(s, OwnSteps(p, 2), AtTest(s, p), k) && Shape(AtTest(s, p)) && Holds(AtTest(s, p), k)
  {
    hide Leads, Reach;
    ReachSelf(s, k);
    var s1 := Then(s, s, ProducerStep(p, None), k);
    var s2 := Then(s, s1, ProducerStep(p, None), k);
    assert s2.producers == AtTest(s, p).producers;
    LeadsNothing(s2, p, k);
    OwnStep(s1, p, 0, s2, k);
    OwnStep(s, p, 1, s2, k);
  }

  lemma ActOnTest(s: State, p: nat, k: nat)
    requires Shape(s) && Holds(s, k) && p < |s.producers| && s.producers[p].at == PTestFlag
    ensures s.ring.fullFlag <= 0 ==> Leads(s, OwnSteps(p, 2), PMove(s, p, PStoreTask).(flagLock := None), k)
    ensures s.ring.fullFlag > 0 ==> Leads(s, OwnSteps(p, 1), PMove(s, p, PYieldQueue), k)
  {
    hide Leads, Reach;
    ReachSelf(s, k);
    var s1 := Then(s, s, ProducerStep(p, None), k);
    if s.ring.fullFlag > 0 {
      LeadsNothing(s1, p, k);
      OwnStep(s, p, 0, s1, k);
    } else {
      var s2 := Then(s, s1, ProducerStep(p, None), k);
      assert s2.producers == PMove(s, p, PStoreTask).producers;
      LeadsNothing(s2, p, k);
      OwnStep(s1, p, 0, s2, k);
      OwnStep(s, p, 1, s2, k);
    }
  }

  /** A producer woken for space takes the two locks, tests the flag again, and by its own steps alone gets
      to its store if the flag is down, and back to waiting, still with both locks, if it is up. */
  lemma WokenProducer(s: State, p: nat, k: nat)
    requires Shape(s) && Holds(s, k) && p < |s.producers| && s.producers[p].at == PRelockFlag
    requires s.queueLock == s.flagLock == None
    ensures s.ring.fullFlag <= 0 ==>
      Leads(s, OwnSteps(p, 4), PMove(s, p, PStoreTask).(queueLock := Some(Prod(p))), k)
    ensures s.ring.fullFlag > 0 ==>
      Leads(s, OwnSteps(p, 3), PMove(s, p, PYieldQueue).(queueLock := Some(Prod(p)), flagLock := Some(Prod(p))), k)
  {
    hide Leads, Holds, Shape;
    var s1 := AtTest(s, p);
    RelockBoth(s, p, k);
    ActOnTest(s1, p, k);
    if s.ring.fullFlag > 0 {
      var s2 := PMove(s, p, PYieldQueue).(queueLock := Some(Prod(p)), flagLock := Some(Prod(p)));
      assert s2.producers == PMove(s1, p, PYieldQueue).producers;
      LeadsConcat(s, OwnSteps(p, 2), s1, OwnSteps(p, 1), s2, k);
      assert OwnSteps(p, 2) + OwnSteps(p, 1) == OwnSteps(p, 3);
    } else {
      var s2 := PMove(s, p, PStoreTask).(queueLock := Some(Prod(p)));
      assert s2.producers == PMove(s1, p, PStoreTask).producers;
      LeadsConcat(s, OwnSteps(p, 2), s1, OwnSteps(p, 2), s2, k);
      assert OwnSteps(p, 2) + OwnSteps(p, 2) == OwnSteps(p, 4);
    }
  }

  lemma SleepAgain(s: State, p: nat, s0: State, k: nat)
    requires Shape(s0) && Holds(s0, k) && p < |s0.producers| && s0.producers[p].at == PSpaceSleep
    requires s0.queueLock == s0.flagLock == None
    requires s == PMove(s0, p, PYieldQueue).(queueLock := Some(Prod(p)), flagLock := Some(Prod(p)))
    ensures Leads(s, OwnSteps(p, 2), s0, k)
  {
    hide Leads, Reach;
    assert Shape(s) && Holds(s, k);
    ReachSelf(s, k);
    var s1 := Then(s, s, ProducerStep(p, None), k);
    var s2 := Then(s, s1, ProducerStep(p, None), k);
    assert s2.producers == s0.producers;
    LeadsNothing(s2, p, k);
    OwnStep(s1, p, 0, s2, k);
    OwnStep(s, p, 1, s2, k);
  }

  /** A spurious wake-up for space is harmless: by its own steps alone the producer gets to its store if the
      flag is down; if it is up it is back asleep and nothing has changed. */
  lemma SpuriousSpaceWakeup(s: State, p: nat, k: nat)
    requires Shape(s) && Holds(s, k) && p < |s.producers| && s.producers[p].at == PSpaceSleep
    requires s.queueLock == s.flagLock == None
    ensures s.ring.fullFlag <= 0 ==>
      Leads(s, [SpuriousProducer(p)] + OwnSteps(p, 4), PMove(s, p, PStoreTask).(queueLock := Some(Prod(p))), k)
    ensures s.ring.fullFlag > 0 ==> Leads(s, [SpuriousProducer(p)] + OwnSteps(p, 5), s, k)
  {
    hide Leads, Reach;
    var s1 := Apply(s, SpuriousProducer(p));
    StepShape(s, SpuriousProducer(p));
    WokenProducer(s1, p, k);
    if s.ring.fullFlag > 0 {
      var s2 := PMove(s, p, PYieldQueue).(queueLock := Some(Prod(p)), flagLock := Some(Prod(p)));
      assert s2.producers == PMove(s1, p, PYieldQueue).producers;
      SleepAgain(s2, p, s, k);
      LeadsConcat(s1, OwnSteps(p, 3), s2, OwnSteps(p, 2), s, k);
      assert OwnSteps(p, 3) + OwnSteps(p, 2) == OwnSteps(p, 5);
      LeadsStep(s, SpuriousProducer(p), OwnSteps(p, 5), s, k);
    } else {
      var s2 := PMove(s, p, PStoreTask).(queueLock := Some(Prod(p)));
      assert s2.producers == PMove(s1, p, PStoreTask).producers;
      LeadsStep(s, SpuriousProducer(p), OwnSteps(p, 4), s2, k);
    }
  }

  /** n steps of worker w, waking nobody. */
  function WorkSteps(w: nat, n: nat): seq<Label> {
    seq(n, i => WorkerStep(w, None))
  }

  lemma WorkStep(s: State, w: nat, n: nat, s': State, k: nat)
    requires Shape(s) && Holds(s, k) && Enabled(s, WorkerStep(w, None))
    requires Leads(Apply(s, WorkerStep(w, None)), WorkSteps(w, n), s', k)
    ensures Leads(s, WorkSteps(w, n + 1), s', k)
  {
    hide Leads;
    LeadsStep(s, WorkerStep(w, None), WorkSteps(w, n), s', k);
    assert WorkSteps(w, n + 1) == [WorkerStep(w, None)] + WorkSteps(w, n);
  }

  lemma WorkNothing(s: State, w: nat, k: nat)
    requires Shape(s) && Holds(s, k)
    ensures Leads(s, WorkSteps(w, 0), s, k)
  {
  }

  lemma TokenTaken(s: State, w: nat, k: nat)
    requires Shape(s) && Holds(s, k) && w < |s.workers| && s.workers[w] == WTakeToken
    ensures Leads(s, WorkSteps(w, 2), WMove(s, w, WReadFront).(ready := s.ready - 1, readyLock := None), k)
  {
    hide Leads, Reach;
    ReachSelf(s, k);
    var s1 := Then(s, s, WorkerStep(w, None), k);
    var s2 := Then(s, s1, WorkerStep(w, None), k);
    assert s2.workers == WMove(s, w, WReadFront).workers;
    WorkNothing(s2, w, k);
    WorkStep(s1, w, 0, s2, k);
    WorkStep(s, w, 1, s2, k);
  }

  lemma TokenFound(s: State, w: nat, k: nat)
    requires Shape(s) && Holds(s, k) && w < |s.workers| && s.workers[w] == WTestReady && s.ready > 0
    ensures Leads(s, WorkSteps(w, 3), WMove(s, w, WReadFront).(ready := s.ready - 1, readyLock := None), k)
  {
    hide Leads;
    var s1 := Apply(s, WorkerStep(w, None));
    StepShape(s, WorkerStep(w, None));
    TokenTaken(s1, w, k);
    var s2 := WMove(s, w, WReadFront).(ready := s.ready - 1, readyLock := None);
    assert s2.workers == WMove(s1, w, WReadFront).workers;
    WorkStep(s, w, 2, s2, k);
  }

  lemma NoTokenFound(s: State, w: nat, k: nat)
    requires Shape(s) && Holds(s, k) && w < |s.workers| && s.workers[w] == WTestReady && s.ready <= 0
    ensures Leads(s, WorkSteps(w, 2), WMove(s, w, WTaskSleep).(readyLock := None), k)
  {
    hide Leads, Reach;
    ReachSelf(s, k);
    var s1 := Then(s, s, WorkerStep(w, None), k);
    var s2 := Then(s, s1, WorkerStep(w, None), k);
    assert s2.workers == WMove(s, w, WTaskSleep).workers;
    WorkNothing(s2, w, k);
    WorkStep(s1, w, 0, s2, k);
    WorkStep(s, w, 1, s2, k);
  }

  /** A worker woken for a task, by a signal or by chance, tests the count again, and by its own steps alone
      takes a token and goes to dequeue if there is one, and is back asleep if there is none. */
  lemma WokenWorker(s: State, w: nat, k: nat)
    requires Shape(s) && Holds(s, k) && w < |s.workers| && s.workers[w] == WRelockReady && s.readyLock == None
    ensures s.ready <= 0 ==> Leads(s, WorkSteps(w, 3), WMove(s, w, WTaskSleep), k)
    ensures s.ready > 0 ==> Leads(s, WorkSteps(w, 4), WMove(s, w, WReadFront).(ready := s.ready - 1), k)
  {
    hide Leads;
    var s1 := Apply(s, WorkerStep(w, None));
    StepShape(s, WorkerStep(w, None));
    if s.ready <= 0 {
      NoTokenFound(s1, w, k);
      var s2 := WMove(s, w, WTaskSleep);
      assert s2.workers == WMove(s1, w, WTaskSleep).workers;
      WorkStep(s, w, 2, s2, k);
    } else {
      TokenFound(s1, w, k);
      var s2 := WMove(s, w, WReadFront).(ready := s.ready - 1);
      assert s2.workers == WMove(s1, w, WReadFront).workers;
      WorkStep(s, w, 3, s2, k);
    }
  }

  /** A spurious wake-up for a task changes nothing when there is no token, and takes one when there is. */
  lemma SpuriousTaskWakeup(s: State, w: nat, k: nat)
    requires Shape(s) && Holds(s, k) && w < |s.workers| && s.workers[w] == WTaskSleep && s.readyLock == None
    ensures s.ready <= 0 ==> Leads(s, [SpuriousWorker(w)] + WorkSteps(w, 3), s, k)
    ensures s.ready > 0 ==>
      Leads(s, [SpuriousWorker(w)] + WorkSteps(w, 4), WMove(s, w, WReadFront).(ready := s.ready - 1), k)
  {
    hide Leads;
    var s1 := Apply(s, SpuriousWorker(w));
    StepShape(s, SpuriousWorker(w));
    WokenWorker(s1, w, k);
    assert WMove(s1, w, WTaskSleep).workers == s.workers;
    assert WMove(s1, w, WReadFront).workers == WMove(s, w, WReadFront).workers;
    var n := if s.ready <= 0 then 3 else 4;
    var last := if s.ready <= 0 then s else WMove(s, w, WReadFront).(ready := s.ready - 1);
    LeadsStep(s, SpuriousWorker(w), WorkSteps(w, n), last, k);
  }

  /** The ring after a store, before any flag update. */
  function Put(r: Ring, task: int): Ring
    requires 0 <= r.back < |r.slots|
  {
    r.(slots := r.slots[r.back := task], back := Next(r.back, r.Size()))
  }

  lemma PutAppends(r: Ring, task: int)
    requires r.Valid()
    ensures Put(r, task).Valid()
    ensures !r.Full() ==> Put(r, task).Contents() == r.Contents() + [task]
    ensures r.Full() ==> Put(r, task).Contents() == []
  {
    StoreAppends(r, task);
    assert Put(r, task).Contents() == r.Store(task).Contents();
  }

  lemma UnlockAndCount(s: State, p: nat, k: nat)
    requires Shape(s) && Holds(s, k) && p < |s.producers| && s.producers[p].at == PUnlockQueue && s.readyLock == None
    ensures var s' := PMove(s, p, PUnlockReady).(queueLock := None, readyLock := Some(Prod(p)), ready := s.ready + 1);
      Reach(s, s', k) && Shape(s') && Holds(s', k)
  {
    hide Reach;
    ReachSelf(s, k);
    var s' := Then(s, s, ProducerStep(p, None), k);
    s' := Then(s, s', ProducerStep(p, None), k);
    s' := Then(s, s', ProducerStep(p, None), k);
    assert s'.producers == PMove(s, p, PUnlockReady).producers;
    assert s' == PMove(s, p, PUnlockReady).(queueLock := None, readyLock := Some(Prod(p)), ready := s.ready + 1);
  }

  /** Counting and signalling, with nobody asleep. */
  lemma Leave(s: State, p: nat, k: nat)
    requires Shape(s) && Holds(s, k) && p < |s.producers| && s.producers[p].at == PUnlockQueue
    requires s.readyLock == None && NobodySleeps(s)
    ensures var s' := PMove(s, p, PLockQueue).(queueLock := None, ready := s.ready + 1);
      Reach(s, s', k) && Shape(s') && Holds(s', k)
  {
    hide Reach;
    UnlockAndCount(s, p, k);
    var s' := PMove(s, p, PUnlockReady).(queueLock := None, readyLock := Some(Prod(p)), ready := s.ready + 1);
    s' := Then(s, s', ProducerStep(p, None), k);
    s' := Then(s, s', ProducerStep(p, None), k);
    assert s'.producers == PMove(s, p, PLockQueue).producers;
    assert s' == PMove(s, p, PLockQueue).(queueLock := None, ready := s.ready + 1);
  }

  function AfterStore(s: State, p: nat, at: PStep): State
    requires p < |s.producers| && s.producers[p].todo != [] && 0 <= s.ring.back < |s.ring.slots|
  {
    var todo := s.producers[p].todo;
    s.(ring := Put(s.ring, todo[0]), producers := s.producers[p := Producer(at, todo[1..])],
       stored := s.stored + [todo[0]])
  }

  lemma StoreTask(s: State, p: nat, k: nat)
    requires Shape(s) && Holds(s, k) && p < |s.producers| && s.producers[p].at == PStoreTask
    requires !s.ring.Full() && |s.ring.Contents()| + 1 <= k
    ensures var ring := Put(s.ring, s.producers[p].todo[0]);
      var s' := AfterStore(s, p, if ring.Full() then PLockFlagAgain else PUnlockQueue);
      ring.Valid() && Reach(s, s', k) && Shape(s') && Holds(s', k)
  {
    hide Reach;
    var ring := Put(s.ring, s.producers[p].todo[0]);
    PutAppends(s.ring, s.producers[p].todo[0]);
    ReachSelf(s, k);
    var s' := Then(s, s, ProducerStep(p, None), k);
    s' := Then(s, s', ProducerStep(p, None), k);
    var at := if ring.Full() then PLockFlagAgain else PUnlockQueue;
    assert s'.producers == AfterStore(s, p, at).producers;
    assert s' == AfterStore(s, p, at);
  }

  lemma RaiseFlag(s: State, p: nat, k: nat)
    requires Shape(s) && Holds(s, k) && p < |s.producers| && s.producers[p].at == PLockFlagAgain && s.flagLock == None
    ensures var s' := PMove(s, p, PUnlockQueue).(ring := s.ring.(fullFlag := s.ring.fullFlag + 1));
      Reach(s, s', k) && Shape(s') && Holds(s', k)
  {
    hide Reach;
    ReachSelf(s, k);
    var s' := Then(s, s, ProducerStep(p, None), k);
    assert Apply(s', ProducerStep(p, None)).ring.Contents() == s'.ring.Contents();
    s' := Then(s, s', ProducerStep(p, None), k);
    s' := Then(s, s', ProducerStep(p, None), k);
    assert s'.producers == PMove(s, p, PUnlockQueue).producers;
    assert s' == PMove(s, p, PUnlockQueue).(ring := s.ring.(fullFlag := s.ring.fullFlag + 1));
  }

  /** From the store to the queue unlock, raising the flag if the ring is now full. */
  lemma StoreAndTest(s: State, p: nat, k: nat)
    requires Shape(s) && Holds(s, k) && p < |s.producers| && s.producers[p].at == PStoreTask
    requires s.flagLock == None && !s.ring.Full() && |s.ring.Contents()| + 1 <= k
    ensures var s' := AfterStore(s, p, PUnlockQueue).(ring := s.ring.Store(s.producers[p].todo[0]));
      Reach(s, s', k) && Shape(s') && Holds(s', k)
  {
    hide Reach;
    StoreTask(s, p, k);
    if Put(s.ring, s.producers[p].todo[0]).Full() {
      var s1 := AfterStore(s, p, PLockFlagAgain);
      RaiseFlag(s1, p, k);
      var s2 := PMove(s1, p, PUnlockQueue).(ring := s1.ring.(fullFlag := s1.ring.fullFlag + 1));
      ReachTrans(s, s1, s2, k);
      assert s2.producers == AfterStore(s, p, PUnlockQueue).producers;
      assert s2 == AfterStore(s, p, PUnlockQueue).(ring := s.ring.Store(s.producers[p].todo[0]));
    } else {
      var s1 := AfterStore(s, p, PUnlockQueue);
      assert s1 == s1.(ring := s.ring.Store(s.producers[p].todo[0]));
    }
  }

  /** The state after producer p has added its next task undisturbed. */
  function Added(s: State, p: nat): State
    requires p < |s.producers| && s.producers[p].todo != [] && 0 <= s.ring.back < |s.ring.slots|
  {
    var todo := s.producers[p].todo;
    s.(ring := s.ring.Store(todo[0]), ready := s.ready + 1,
       producers := s.producers[p := Producer(PLockQueue, todo[1..])], stored := s.stored + [todo[0]])
  }

  lemma AddOnce(s: State, p: nat, k: nat)
    requires AddReady(s, p, k) && s.ring.fullFlag == 0 && NobodySleeps(s)
    requires !s.ring.Full() && |s.ring.Contents()| + 1 <= k
    ensures Reach(s, Added(s, p), k) && Shape(Added(s, p)) && Holds(Added(s, p), k)
    ensures Added(s, p).ring.Contents() == s.ring.Contents() + [s.producers[p].todo[0]]
  {
    hide Reach;
    var todo := s.producers[p].todo;
    StoreAppends(s.ring, todo[0]);
    Enter(s, p, k);
    var s1 := PMove(s, p, PStoreTask).(queueLock := Some(Prod(p)));
    StoreAndTest(s1, p, k);
    var s2 := AfterStore(s1, p, PUnlockQueue).(ring := s1.ring.Store(todo[0]));
    ReachTrans(s, s1, s2, k);
    Leave(s2, p, k);
    var s3 := PMove(s2, p, PLockQueue).(queueLock := None, ready := s2.ready + 1);
    ReachTrans(s, s2, s3, k);
    assert s3.producers == Added(s, p).producers;
    assert s3 == Added(s, p);
  }

  /** Producer p adds tasks until the ring is full and the flag is up. */
  lemma {:induction false} FillUp(s: State, p: nat, k: nat) returns (s': State)
    requires p < |s.producers| && s.producers[p].at == PLockQueue && Shape(s) && Holds(s, k) && k >= s.ring.Size() - 1
    requires s.queueLock == s.flagLock == s.readyLock == None && NobodySleeps(s)
    requires s.ring.FlagExact() && Fifo(s)
    requires |s.producers[p].todo| + |s.ring.Contents()| >= s.ring.Size() - 1
    ensures Reach(s, s', k) && Shape(s') && Holds(s', k) && s'.ring.Full() && s'.ring.fullFlag == 1 && Fifo(s')
    ensures s'.ring.Size() == s.ring.Size() && s'.ring.front == s.ring.front
    ensures s'.workers == s.workers && s'.queueLock == s'.flagLock == s'.readyLock == None
    ensures s'.ready == s.ready + s.ring.Size() - 1 - |s.ring.Contents()|
    ensures |s'.producers| == |s.producers| && s'.producers[p].at == PLockQueue
    ensures |s'.producers[p].todo| == |s.producers[p].todo| - (s.ring.Size() - 1 - |s.ring.Contents()|)
    ensures forall q | 0 <= q < |s.producers| && q != p :: s'.producers[q] == s.producers[q]
    ensures s'.exitReleases == s.exitReleases
    decreases |s.producers[p].todo|
  {
    hide Reach;
    OccupancyBounds(s.ring);
    if s.ring.Full() {
      ReachSelf(s, k);
      s' := s;
    } else {
      AddOnce(s, p, k);
      var s1 := Added(s, p);
      assert s1.taken + s1.ring.Contents() == (s.taken + s.ring.Contents()) + [s.producers[p].todo[0]];
      s' := FillUp(s1, p, k);
      ReachTrans(s, s1, s', k);
    }
  }

  // ----- stretches of a worker -----

  lemma LockAndTest(s: State, w: nat, k: nat)
    requires Shape(s) && Holds(s, k) && w < |s.workers| && s.workers[w] == WLockReady
    requires s.readyLock == None && s.ready > 0
    ensures var s' := WMove(s, w, WUnlockReady).(readyLock := Some(Work(w)), ready := s.ready - 1);
      Reach(s, s', k) && Shape(s') && Holds(s', k)
  {
    hide Reach;
    ReachSelf(s, k);
    var s' := Then(s, s, WorkerStep(w, None), k);
    s' := Then(s, s', WorkerStep(w, None), k);
    s' := Then(s, s', WorkerStep(w, None), k);
    assert s'.workers == WMove(s, w, WUnlockReady).workers;
    assert s' == WMove(s, w, WUnlockReady).(readyLock := Some(Work(w)), ready := s.ready - 1);
  }

  /** Worker w takes a token and reads `front`. */
  lemma TakeToken(s: State, w: nat, k: nat)
    requires Shape(s) && Holds(s, k) && w < |s.workers| && s.workers[w] == WLockReady
    requires s.readyLock == None && s.ready > 0
    ensures var s' := WMove(s, w, WLockQueue(s.ring.front)).(ready := s.ready - 1);
      Reach(s, s', k) && Shape(s') && Holds(s', k)
  {
    hide Reach;
    LockAndTest(s, w, k);
    var s' := WMove(s, w, WUnlockReady).(readyLock := Some(Work(w)), ready := s.ready - 1);
    s' := Then(s, s', WorkerStep(w, None), k);
    s' := Then(s, s', WorkerStep(w, None), k);
    assert s'.workers == WMove(s, w, WLockQueue(s.ring.front)).workers;
    assert s' == WMove(s, w, WLockQueue(s.ring.front)).(ready := s.ready - 1);
  }

  lemma LockAndRead(s: State, w: nat, f: int, k: nat)
    requires Shape(s) && Holds(s, k) && w < |s.workers| && s.workers[w] == WLockQueue(f) && 0 <= f < s.ring.Size()
    requires s.queueLock == None && !s.ring.Empty()
    ensures var s' := WMove(s, w, WMoveFront(f, s.ring.slots[f])).(queueLock := Some(Work(w)));
      Reach(s, s', k) && Shape(s') && Holds(s', k)
  {
    hide Reach;
    ReachSelf(s, k);
    var s' := Then(s, s, WorkerStep(w, None), k);
    s' := Then(s, s', WorkerStep(w, None), k);
    s' := Then(s, s', WorkerStep(w, None), k);
    assert s'.workers == WMove(s, w, WMoveFront(f, s.ring.slots[f])).workers;
    assert s' == WMove(s, w, WMoveFront(f, s.ring.slots[f])).(queueLock := Some(Work(w)));
  }

  function SlotTaken(s: State, w: nat, f: int): State
    requires w < |s.workers| && 0 <= f < |s.ring.slots|
  {
    var task := s.ring.slots[f];
    WMove(s, w, WLockFlag(task)).(ring := s.ring.(front := Next(f, s.ring.Size())), taken := s.taken + [task])
  }

  /** Worker w, which read `front` as f, takes slot f and moves the front past it. */
  lemma TakeSlot(s: State, w: nat, f: int, k: nat)
    requires Shape(s) && Holds(s, k) && w < |s.workers| && s.workers[w] == WLockQueue(f) && 0 <= f < s.ring.Size()
    requires s.queueLock == None && !s.ring.Empty()
    requires Holds(SlotTaken(s, w, f), k)
    ensures var s' := SlotTaken(s, w, f); Reach(s, s', k) && Shape(s') && Holds(s', k)
  {
    hide Reach;
    LockAndRead(s, w, f, k);
    var s1 := WMove(s, w, WMoveFront(f, s.ring.slots[f])).(queueLock := Some(Work(w)));
    MoveAndUnlock(s1, w, k);
    var s' := SlotTaken(s, w, f);
    assert s'.workers == MovedFront(s1, w).workers;
    assert s' == MovedFront(s1, w);
    ReachTrans(s, s1, s', k);
  }

  function MovedFront(s: State, w: nat): State
    requires w < |s.workers| && s.workers[w].WMoveFront? && 0 <= s.workers[w].front < |s.ring.slots|
  {
    var WMoveFront(f, task) := s.workers[w];
    WMove(s, w, WLockFlag(task)).(
      queueLock := None, ring := s.ring.(front := Next(f, s.ring.Size())), taken := s.taken + [task])
  }

  lemma MoveAndUnlock(s: State, w: nat, k: nat)
    requires Shape(s) && Holds(s, k) && w < |s.workers| && s.workers[w].WMoveFront?
    requires 0 <= s.workers[w].front < s.ring.Size()
    requires Holds(MovedFront(s, w), k)
    ensures Reach(s, MovedFront(s, w), k) && Shape(MovedFront(s, w))
  {
    hide Reach;
    var s1 := Apply(s, WorkerStep(w, None));
    assert s1.ring == MovedFront(s, w).ring;
    ReachStep(s, WorkerStep(w, None), k);
    var s2 := Then(s, s1, WorkerStep(w, None), k);
    assert s2.workers == MovedFront(s, w).workers;
    assert s2 == MovedFront(s, w);
  }

  lemma LockAndLower(s: State, w: nat, k: nat)
    requires Shape(s) && Holds(s, k) && w < |s.workers| && s.workers[w].WLockFlag?
    requires s.flagLock == None && s.ring.fullFlag > 0
    ensures var s' := WMove(s, w, WSignalSpace(s.workers[w].task)).(
        flagLock := Some(Work(w)), ring := s.ring.(fullFlag := s.ring.fullFlag - 1));
      Reach(s, s', k) && Shape(s') && Holds(s', k)
  {
    hide Reach;
    var task := s.workers[w].task;
    ReachSelf(s, k);
    var s' := Then(s, s, WorkerStep(w, None), k);
    s' := Then(s, s', WorkerStep(w, None), k);
    assert Apply(s', WorkerStep(w, None)).ring.Contents() == s'.ring.Contents();
    s' := Then(s, s', WorkerStep(w, None), k);
    assert s'.workers == WMove(s, w, WSignalSpace(task)).workers;
    assert s' == WMove(s, w, WSignalSpace(task)).(
        flagLock := Some(Work(w)), ring := s.ring.(fullFlag := s.ring.fullFlag - 1));
  }

  function FlagLowered(s: State, w: nat, wake: Option<nat>): State
    requires w < |s.workers| && s.workers[w].WLockFlag? && (wake.Some? ==> wake.value < |s.producers|)
  {
    var task := s.workers[w].task;
    var s' := WMove(s, w, if task != 0 then WRunJob(task) else WLockReady).(
        ring := s.ring.(fullFlag := s.ring.fullFlag - 1));
    if wake.Some? then PMove(s', wake.value, PRelockFlag) else s'
  }

  /** Worker w lowers the flag, wakes as told, and lets the flag lock go. */
  lemma LowerFlag(s: State, w: nat, wake: Option<nat>, k: nat)
    requires Shape(s) && Holds(s, k) && w < |s.workers| && s.workers[w].WLockFlag?
    requires s.flagLock == None && s.ring.fullFlag > 0 && WakesProducer(s, wake)
    ensures var s' := FlagLowered(s, w, wake); Reach(s, s', k) && Shape(s') && Holds(s', k)
  {
    hide Reach;
    LockAndLower(s, w, k);
    var s' := WMove(s, w, WSignalSpace(s.workers[w].task)).(
        flagLock := Some(Work(w)), ring := s.ring.(fullFlag := s.ring.fullFlag - 1));
    s' := Then(s, s', WorkerStep(w, wake), k);
    s' := Then(s, s', WorkerStep(w, None), k);
    assert s'.workers == FlagLowered(s, w, wake).workers;
    assert s' == FlagLowered(s, w, wake);
  }

  // ----- two workers take one task -----

  /** A starting pool; `releases` says how its empty exit is read. */
  function Start(size: nat, todos: seq<seq<int>>, workers: nat, releases: bool): State {
    State(Ring(seq(size, i => 0), 0, 0, 0), 0, None, None, None, releases,
          seq(|todos|, p requires 0 <= p < |todos| => Producer(PLockQueue, todos[p])),
          seq(workers, w => WLockReady), [], [], [])
  }

  lemma StartIsInit(size: nat, todos: seq<seq<int>>, workers: nat, releases: bool)
    requires size >= 4 && workers >= 1
    ensures var s0 := Start(size, todos, workers, releases);
      && Init(s0) && Shape(s0) && Holds(s0, 0) && s0.ring.Contents() == [] && s0.ring.FlagExact()
      && NobodySleeps(s0) && Fifo(s0)
  {
  }

  lemma AddTwice(s: State, a: int, b: int) returns (s': State)
    requires AddReady(s, 0, 2) && s.ring.fullFlag == 0 && NobodySleeps(s) && s.producers[0].todo == [a, b]
    requires s.ring.front == s.ring.back == 0 && s.stored == s.taken == [] && s.ready == 0
    ensures Reach(s, s', 2) && Shape(s') && Holds(s', 2)
    ensures s'.ring.front == 0 && s'.ring.back == 2 && s'.ring.slots[0] == a && s'.ring.slots[1] == b
    ensures s'.stored == [a, b] && s'.taken == [] && s'.ready == 2 && s'.workers == s.workers
    ensures s'.queueLock == s'.readyLock == None
  {
    hide Reach;
    AddOnce(s, 0, 2);
    var s1 := Added(s, 0);
    AddOnce(s1, 0, 2);
    s' := Added(s1, 0);
    ReachTrans(s, s1, s', 2);
  }

  lemma BothReadFront(s: State) returns (s': State)
    requires Shape(s) && Holds(s, 2) && |s.workers| >= 2 && s.workers[0] == s.workers[1] == WLockReady
    requires s.readyLock == None && s.ready == 2
    ensures Reach(s, s', 2) && Shape(s') && Holds(s', 2)
    ensures s'.workers == s.workers[0 := WLockQueue(s.ring.front)][1 := WLockQueue(s.ring.front)]
    ensures s' == s.(ready := 0, workers := s'.workers)
  {
    hide Reach;
    TakeToken(s, 0, 2);
    var s1 := WMove(s, 0, WLockQueue(s.ring.front)).(ready := 1);
    TakeToken(s1, 1, 2);
    s' := WMove(s1, 1, WLockQueue(s.ring.front)).(ready := 0);
    ReachTrans(s, s1, s', 2);
  }

  /** Two workers both read `front` before either locks the queue: the first task is taken twice and
      the second is left behind, with never more than two tasks in the ring, however the empty exit
      is read. */
  lemma TwoWorkersTakeOneTask(size: nat, workers: nat, releases: bool) returns (s0: State, s': State)
    requires size >= 4 && workers >= 2
    ensures s0 == Start(size, [[1, 2]], workers, releases) && Init(s0) && Reach(s0, s', 2)
    ensures s'.ring.Valid() && s'.stored == [1, 2] && s'.taken == [1, 1] && s'.ring.Contents() == [2]
  {
    s0 := Start(size, [[1, 2]], workers, releases);
    StartIsInit(size, [[1, 2]], workers, releases);
    var s1 := AddTwice(s0, 1, 2);
    var s2 := BothReadFront(s1);
    s' := TakeTwice(s2);
    ReachTrans(s0, s1, s2, 2);
    ReachTrans(s0, s2, s', 2);
  }

  lemma TakeTwice(s: State) returns (s': State)
    requires Shape(s) && Holds(s, 2) && |s.workers| >= 2
    requires s.workers[0] == WLockQueue(0) && s.workers[1] == WLockQueue(0) && s.queueLock == None
    requires s.ring.front == 0 && s.ring.back == 2 && s.ring.slots[0] == 1 && s.ring.slots[1] == 2 && s.taken == []
    ensures Reach(s, s', 2) && s'.stored == s.stored && s'.taken == [1, 1]
    ensures s'.ring.Valid() && s'.ring.Contents() == [2]
  {
    hide Reach;
    TakeSlot(s, 0, 0, 2);
    var s1 := SlotTaken(s, 0, 0);
    TakeSlot(s1, 1, 0, 2);
    s' := SlotTaken(s1, 1, 0);
    ReachTrans(s, s1, s', 2);
  }

  // ----- one worker erases the flag -----

  /** A worker dequeues the first task and stops before the flag; the producer then fills the ring. */
  lemma DequeueThenFill(s: State, k: nat) returns (s': State)
    requires AddReady(s, 0, k) && k == s.ring.Size() - 1 && NobodySleeps(s) && Fifo(s) && s.ring.FlagExact()
    requires s.ring.Contents() == [] && |s.workers| >= 1 && s.workers[0] == WLockReady && s.ready == 0
    requires s.producers[0].todo[0] == 1 && |s.producers[0].todo| == s.ring.Size() + 1
    ensures Reach(s, s', k) && Shape(s') && Holds(s', k) && Fifo(s') && s'.ring.Full() && s'.ring.fullFlag == 1
    ensures |s'.workers| >= 1 && s'.workers[0] == WLockFlag(1) && s'.ring.Size() == s.ring.Size()
    ensures |s'.producers| == |s.producers| && s'.producers[0].at == PLockQueue && |s'.producers[0].todo| == 1
    ensures forall p | 0 < p < |s.producers| :: s'.producers[p] == s.producers[p]
    ensures s'.queueLock == s'.flagLock == s'.readyLock == None
    ensures s'.ready == s.ring.Size() - 1 && NobodySleeps(s') && s'.exitReleases == s.exitReleases
  {
    hide Reach;
    AddOnce(s, 0, k);
    var s1 := Added(s, 0);
    var s2 := TakeOnlyTask(s1, k);
    s' := FillUp(s2, 0, k);
    ReachTrans(s, s1, s2, k);
    ReachTrans(s, s2, s', k);
  }

  lemma TakeOnlyTask(s: State, k: nat) returns (s': State)
    requires Shape(s) && Holds(s, k) && Fifo(s) && s.ring.Contents() == [1] && s.ring.FlagExact()
    requires |s.workers| >= 1 && s.workers[0] == WLockReady && s.ready == 1 && NobodySleeps(s)
    requires s.queueLock == s.readyLock == None
    ensures Reach(s, s', k) && Shape(s') && Holds(s', k) && Fifo(s') && s'.ring.Contents() == [] && s'.ring.FlagExact()
    ensures s'.workers == s.workers[0 := WLockFlag(1)] && s'.ready == 0 && s'.ring.Size() == s.ring.Size()
    ensures s'.producers == s.producers && s'.queueLock == None && s'.flagLock == s.flagLock && s'.readyLock == None
    ensures s'.exitReleases == s.exitReleases
  {
    hide Reach;
    TakeToken(s, 0, k);
    var s1 := WMove(s, 0, WLockQueue(s.ring.front)).(ready := 0);
    s' := SlotTaken(s1, 0, s.ring.front);
    OnlyTaskTaken(s.ring);
    assert s'.ring == s.ring.Drop();
    assert s'.taken + [] == s.taken + [1];
    TakeSlot(s1, 0, s.ring.front, k);
    ReachTrans(s, s1, s', k);
  }

  lemma OnlyTaskTaken(r: Ring)
    requires r.Valid() && r.Contents() == [1] && r.FlagExact()
    ensures !r.Empty() && r.slots[r.front] == 1 && r.fullFlag == 0
    ensures r.Drop().Valid() && r.Drop().Contents() == [] && r.Drop().FlagExact()
    ensures r.Drop() == r.(front := Next(r.front, r.Size()))
  {
    OccupancyBounds(r);
    DropTakesHead(r);
    assert r.Contents()[0] == r.slots[r.front];
    OccupancyBounds(r.Drop());
  }

  /** A full ring with its flag lowered by a worker that is done with the task it dequeued earlier. */
  lemma EraseFlag(size: nat, producers: nat, workers: nat, releases: bool) returns (s0: State, s': State)
    requires size >= 4 && producers >= 1 && workers >= 1
    ensures Init(s0) && s0.ring.Size() == size && |s0.workers| == workers && |s0.producers| == producers
    ensures s0.exitReleases == s'.exitReleases == releases && Reach(s0, s', size - 1)
    ensures AddReady(s', 0, size - 1) && Fifo(s') && s'.ring.Full() && s'.ring.fullFlag == 0
    ensures s'.ring.Size() == size && s'.ready == size - 1 && NobodySleeps(s')
    ensures |s'.workers| >= 1 && s'.workers[0] == WRunJob(1)
  {
    hide Reach;
    var k := size - 1;
    var todos := seq(producers, p => if p == 0 then seq(size + 1, i => 1) else []);
    s0 := Start(size, todos, workers, releases);
    StartIsInit(size, todos, workers, releases);
    var s1 := DequeueThenFill(s0, k);
    LowerFlag(s1, 0, None, k);
    s' := FlagLowered(s1, 0, None);
    assert s'.ring.Contents() == s1.ring.Contents();
    ReachTrans(s0, s1, s', k);
  }

  /** A worker that dequeued before the ring filled lowers the flag afterwards; the next store then
      makes the full ring look empty and its tasks are lost. One producer and one worker suffice. */
  lemma WorkerErasesFlag(size: nat, workers: nat, releases: bool) returns (s0: State, s': State)
    requires size >= 4 && workers >= 1
    ensures Init(s0) && s0.ring.Size() == size && |s0.workers| == workers && |s0.producers| == 1
    ensures s0.exitReleases == releases && Reach(s0, s', size - 1)
    ensures s'.ring.Valid() && s'.ring.Contents() == [] && |s'.stored| == |s'.taken| + size
  {
    hide Reach;
    var s1;
    s0, s1 := EraseFlag(size, 1, workers, releases);
    s' := StoreOverFull(s1, size - 1);
    ReachTrans(s0, s1, s', size - 1);
  }

  lemma StoreOverFull(s: State, k: nat) returns (s': State)
    requires AddReady(s, 0, k) && s.ring.fullFlag == 0 && s.ring.Full() && Fifo(s)
    ensures Reach(s, s', k) && Shape(s') && Holds(s', k) && s'.ring.Contents() == []
    ensures |s'.stored| == |s'.taken| + s.ring.Size()
    ensures s' == AfterStore(s, 0, PTestFull).(queueLock := Some(Prod(0)))
  {
    hide Reach;
    OccupancyBounds(s.ring);
    Enter(s, 0, k);
    var s1 := PMove(s, 0, PStoreTask).(queueLock := Some(Prod(0)));
    PutAppends(s.ring, s.producers[0].todo[0]);
    s' := Then(s, s1, ProducerStep(0, None), k);
    assert s'.ring == Put(s.ring, s.producers[0].todo[0]);
    assert s'.producers == AfterStore(s, 0, PTestFull).producers;
  }

  /** Some run of a pool of that size, holding at most k tasks, is not first-in-first-out. */
  ghost predicate CanMisorder(size: nat, workers: nat, k: nat, releases: bool) {
    exists s0, ls :: Init(s0) && s0.exitReleases == releases && s0.ring.Size() == size && |s0.workers| == workers
      && CanRun(s0, ls) && BoundedRun(s0, ls, k) && !Fifo(Exec(s0, ls))
  }

  lemma ReachMisorders(s0: State, s': State, j: nat, k: nat)
    requires Init(s0) && Reach(s0, s', j) && j <= k && !Fifo(s')
    ensures CanMisorder(s0.ring.Size(), |s0.workers|, k, s0.exitReleases)
  {
    var ls :| Leads(s0, ls, s', j);
    LeadsIsRun(s0, ls, s', j, k);
  }

  lemma SafeNeverMisorders(size: nat, workers: nat, k: nat, releases: bool)
    requires Safe(size, workers, k)
    ensures !CanMisorder(size, workers, k, releases)
  {
    forall s0, ls | Init(s0) && s0.ring.Size() == size && |s0.workers| == workers
                    && CanRun(s0, ls) && BoundedRun(s0, ls, k)
      ensures Fifo(Exec(s0, ls))
    {
      var _ := FineRefinesMonitor(s0, k, ls);
    }
  }

  /** For every ring size, number of workers and bound k: all runs of the code as written in which
      the ring never holds more than k tasks are first-in-first-out if and only if k <= 1, or one
      worker runs and k <= size - 2. A release of the lock in the empty exit would not help. */
  lemma FifoExactly(size: nat, workers: nat, k: nat, releases: bool)
    requires size >= 4 && workers >= 1
    ensures CanMisorder(size, workers, k, releases) <==> !(k <= 1 || (workers == 1 && k <= size - 2))
  {
    hide CanMisorder, Reach;
    if Safe(size, workers, k) {
      SafeNeverMisorders(size, workers, k, releases);
    } else if workers >= 2 {
      var s0, s' := TwoWorkersTakeOneTask(size, workers, releases);
      ReachMisorders(s0, s', 2, k);
    } else {
      var s0, s' := WorkerErasesFlag(size, workers, releases);
      ReachMisorders(s0, s', size - 1, k);
    }
  }

  // ----- two producers deadlock -----

  /** Producer p finds the flag up and goes to sleep for space. */
  lemma SleepForSpace(s: State, p: nat, k: nat)
    requires AddReady(s, p, k) && s.ring.fullFlag > 0
    ensures var s' := PMove(s, p, PSpaceSleep); Reach(s, s', k) && Shape(s') && Holds(s', k)
  {
    hide Reach;
    ReachSelf(s, k);
    var s' := Then(s, s, ProducerStep(p, None), k);
    s' := Then(s, s', ProducerStep(p, None), k);
    s' := Then(s, s', ProducerStep(p, None), k);
    s' := Then(s, s', ProducerStep(p, None), k);
    s' := Then(s, s', ProducerStep(p, None), k);
    assert s'.producers == PMove(s, p, PSpaceSleep).producers;
    assert s' == PMove(s, p, PSpaceSleep);
  }

  /** Producer 0, woken with the flag lock, wants the queue lock that producer 1 took on its way to
      the flag lock. */
  lemma TwoProducersDeadlock(size: nat, producers: nat, workers: nat, releases: bool) returns (s0: State, s': State)
    requires size >= 4 && producers >= 2 && workers >= 1
    ensures Init(s0) && s0.exitReleases == releases && s0.ring.Size() == size
    ensures |s0.producers| == producers && |s0.workers| == workers
    ensures Reach(s0, s', size - 1) && LockCycle(s', [Prod(0), Prod(1), Prod(0)])
  {
    var k := size - 1;
    var todos := seq(producers, p => seq(size, i => 1));
    s0 := Start(size, todos, workers, releases);
    StartIsInit(size, todos, workers, releases);
    var s1 := FillUp(s0, 0, k);
    SleepForSpace(s1, 0, k);
    var s2 := PMove(s1, 0, PSpaceSleep);
    var s3 := DequeueAndWake(s2, k);
    s' := CrossLocks(s3, k);
    ReachTrans(s0, s1, s2, k);
    ReachTrans(s0, s2, s3, k);
    ReachTrans(s0, s3, s', k);
  }

  /** The dequeue that lowers the flag wakes producer 0. */
  lemma DequeueAndWake(s: State, k: nat) returns (s': State)
    requires Shape(s) && Holds(s, k) && s.ring.Full() && s.ring.fullFlag == 1 && s.ready > 0 && k == s.ring.Size() - 1
    requires |s.workers| >= 1 && s.workers[0] == WLockReady
    requires |s.producers| >= 1 && s.producers[0].at == PSpaceSleep
    requires s.queueLock == s.flagLock == s.readyLock == None
    ensures Reach(s, s', k) && Shape(s') && Holds(s', k)
    ensures s'.producers == s.producers[0 := s.producers[0].(at := PRelockFlag)]
    ensures s'.queueLock == s'.flagLock == s'.readyLock == None
  {
    hide Reach;
    var f := s.ring.front;
    TakeToken(s, 0, k);
    var s1 := WMove(s, 0, WLockQueue(f)).(ready := s.ready - 1);
    OccupancyBounds(s.ring);
    var s2 := SlotTaken(s1, 0, f);
    OccupancyBounds(s2.ring);
    TakeSlot(s1, 0, f, k);
    LowerFlag(s2, 0, Some(0), k);
    s' := FlagLowered(s2, 0, Some(0));
    ReachTrans(s, s1, s2, k);
    ReachTrans(s, s2, s', k);
  }

  lemma CrossLocks(s: State, k: nat) returns (s': State)
    requires Shape(s) && Holds(s, k) && |s.producers| >= 2 && s.producers[0].at == PRelockFlag
    requires s.producers[1].at == PLockQueue && s.producers[1].todo != []
    requires s.queueLock == s.flagLock == s.readyLock == None
    ensures Reach(s, s', k) && LockCycle(s', [Prod(0), Prod(1), Prod(0)])
  {
    hide Reach;
    ReachSelf(s, k);
    var s1 := Then(s, s, ProducerStep(0, None), k);
    s' := Then(s, s1, ProducerStep(1, None), k);
    assert WaitsFor(s', Prod(0), Prod(1)) && WaitsFor(s', Prod(1), Prod(0));
  }

  // ----- one worker locks itself out -----

  /** The producer finishes its add on a ring that looks empty. */
  lemma FinishAdd(s: State, k: nat)
    requires Shape(s) && Holds(s, k) && s.producers != [] && s.producers[0].at == PTestFull
    requires s.ring.Empty() && s.readyLock == None && NobodySleeps(s)
    ensures var s' := PMove(s, 0, PLockQueue).(queueLock := None, ready := s.ready + 1);
      Reach(s, s', k) && Shape(s') && Holds(s', k)
  {
    hide Reach;
    ReachSelf(s, k);
    var s1 := Then(s, s, ProducerStep(0, None), k);
    assert s1 == PMove(s, 0, PUnlockQueue);
    Leave(s1, 0, k);
    var s' := PMove(s, 0, PLockQueue).(queueLock := None, ready := s.ready + 1);
    assert s'.producers == PMove(s1, 0, PLockQueue).producers;
    ReachTrans(s, s1, s', k);
  }

  /** A worker with a token meets an empty ring and leaves with the queue locked. */
  lemma LeaveLocked(s: State, k: nat)
    requires Shape(s) && Holds(s, k) && |s.workers| >= 1 && s.workers[0] == WLockReady && !s.exitReleases
    requires s.ready > 0 && s.ring.Empty() && s.queueLock == s.readyLock == None
    ensures var s' := s.(ready := s.ready - 1, queueLock := Some(Work(0)));
      Reach(s, s', k) && Shape(s') && Holds(s', k)
  {
    hide Reach;
    TakeToken(s, 0, k);
    var s1 := WMove(s, 0, WLockQueue(s.ring.front)).(ready := s.ready - 1);
    var s2 := Then(s, s1, WorkerStep(0, None), k);
    var s3 := Then(s, s2, WorkerStep(0, None), k);
    var s' := s.(ready := s.ready - 1, queueLock := Some(Work(0)));
    assert s3.workers == s'.workers;
    assert s3 == s';
  }

  /** With the next token it waits for the lock that it owns. */
  lemma LockedOut(s: State, k: nat) returns (s': State)
    requires Shape(s) && Holds(s, k) && |s.workers| >= 1 && s.workers[0] == WRunJob(1) && !s.exitReleases
    requires s.ready >= 2 && s.ring.Empty() && s.queueLock == s.readyLock == None
    ensures Reach(s, s', k) && LockCycle(s', [Work(0), Work(0)])
  {
    hide Reach;
    ReachSelf(s, k);
    var s1 := Then(s, s, WorkerStep(0, None), k);
    LeaveLocked(s1, k);
    var s2 := s1.(ready := s1.ready - 1, queueLock := Some(Work(0)));
    TakeToken(s2, 0, k);
    s' := WMove(s2, 0, WLockQueue(s2.ring.front)).(ready := s2.ready - 1);
    ReachTrans(s, s1, s2, k);
    ReachTrans(s, s2, s', k);
    assert WaitsFor(s', Work(0), Work(0));
  }

  /** As written, the run that erases the flag goes on to a worker waiting for itself: the ring looks
      empty while tokens are left, the empty exit keeps the lock, and the next dequeue wants it. */
  lemma OneProducerDeadlocks(size: nat, producers: nat, workers: nat) returns (s0: State, s': State)
    requires size >= 4 && producers >= 1 && workers >= 1
    ensures Init(s0) && !s0.exitReleases && s0.ring.Size() == size
    ensures |s0.producers| == producers && |s0.workers| == workers
    ensures Reach(s0, s', size - 1) && LockCycle(s', [Work(0), Work(0)])
  {
    hide Reach;
    var k := size - 1;
    var s1;
    s0, s1 := EraseFlag(size, producers, workers, false);
    var s2 := StoreOverFull(s1, k);
    OccupancyBounds(s2.ring);
    FinishAdd(s2, k);
    var s3 := PMove(s2, 0, PLockQueue).(queueLock := None, ready := s2.ready + 1);
    s' := LockedOut(s3, k);
    ReachTrans(s0, s1, s2, k);
    ReachTrans(s0, s2, s3, k);
    ReachTrans(s0, s3, s', k);
  }

  // ----- without a producer nothing happens -----

  predicate Waiting(at: WStep) {
    at in {WLockReady, WTestReady, WAwaitTask, WTaskSleep, WRelockReady}
  }

  /** No task was ever added: workers only take the ready lock in turn and go to sleep. */
  ghost predicate NoTasks(s: State) {
    && Shape(s) && LocksHeld(s) && s.producers == [] && s.ready <= 0
    && s.queueLock == s.flagLock == None
    && (forall w | 0 <= w < |s.workers| :: Waiting(s.workers[w]))
    && (s.readyLock.Some? ==> Inside(s, s.readyLock.value, ReadyM))
  }

  lemma NoTasksStep(s: State, l: Label)
    requires NoTasks(s) && Enabled(s, l)
    ensures NoTasks(Apply(s, l))
  {
    StepShape(s, l);
    StepLocks(s, l);
    assert forall m :: Owner(s, m).Some? ==> m == ReadyM;
    if s.readyLock.Some? {
      var Work(v) := s.readyLock.value;
      assert forall w: nat | w < |s.workers| && WHolds(s.workers[w], ReadyM) :: Inside(s, Work(w), ReadyM);
    }
  }

  lemma {:induction false} NoTasksRun(s: State, ls: seq<Label>)
    requires NoTasks(s) && CanRun(s, ls)
    ensures NoTasks(Exec(s, ls))
    decreases |ls|
  {
    if ls != [] {
      NoTasksStep(s, ls[0]);
      NoTasksRun(Apply(s, ls[0]), ls[1..]);
    }
  }

  lemma OwnerDoesNotWait(s: State, t: Thread, u: Thread, v: Thread)
    requires NoTasks(s) && WaitsFor(s, t, u)
    ensures !WaitsFor(s, u, v)
  {
    assert Wants(s, t) == Some(ReadyM);
  }

  lemma SecondWaits(s: State, chain: seq<Thread>) returns (v: Thread)
    requires LockCycle(s, chain)
    ensures WaitsFor(s, chain[0], chain[1]) && WaitsFor(s, chain[1], v)
  {
    v := if |chain| == 2 then chain[1] else chain[2];
    assert WaitsFor(s, chain[0], chain[1]);
  }

  lemma NoTasksNoCycle(s0: State, ls: seq<Label>, chain: seq<Thread>)
    requires Init(s0) && s0.producers == [] && CanRun(s0, ls)
    ensures !LockCycle(Exec(s0, ls), chain)
  {
    NoTasksRun(s0, ls);
    var s := Exec(s0, ls);
    if LockCycle(s, chain) {
      var v := SecondWaits(s, chain);
      OwnerDoesNotWait(s, chain[0], chain[1], v);
    }
  }

  // ----- lock cycles, exactly -----

  /** Some reachable state of a pool of that shape has a lock cycle. */
  ghost predicate CanDeadlock(size: nat, producers: nat, workers: nat, releases: bool) {
    exists s0, ls, chain :: Init(s0) && s0.exitReleases == releases && s0.ring.Size() == size
      && |s0.producers| == producers && |s0.workers| == workers
      && CanRun(s0, ls) && LockCycle(Exec(s0, ls), chain)
  }

  lemma ReachDeadlocks(s0: State, s': State, k: nat, chain: seq<Thread>)
    requires Init(s0) && Reach(s0, s', k) && LockCycle(s', chain)
    ensures CanDeadlock(s0.ring.Size(), |s0.producers|, |s0.workers|, s0.exitReleases)
  {
    var ls :| Leads(s0, ls, s', k);
    LeadsIsRun(s0, ls, s', k, k);
    assert LockCycle(Exec(s0, ls), chain);
  }

  /** For every ring size and number of workers, a lock cycle is reachable in the code as written if and
      only if there is a producer at all. */
  lemma LockCycleAsWritten(size: nat, producers: nat, workers: nat)
    requires size >= 4 && workers >= 1
    ensures CanDeadlock(size, producers, workers, false) <==> producers >= 1
  {
    if producers == 0 {
      forall s0, ls, chain | Init(s0) && |s0.producers| == producers && CanRun(s0, ls)
        ensures !LockCycle(Exec(s0, ls), chain)
      {
        NoTasksNoCycle(s0, ls, chain);
      }
    } else {
      var s0, s' := OneProducerDeadlocks(size, producers, workers);
      ReachDeadlocks(s0, s', size - 1, [Work(0), Work(0)]);
    }
  }

  /** With the empty exit repaired to release the lock, one is reachable if and only if there are two
      producers. */
  lemma LockCycleRepaired(size: nat, producers: nat, workers: nat)
    requires size >= 4 && workers >= 1
    ensures CanDeadlock(size, producers, workers, true) <==> producers >= 2
  {
    if producers <= 1 {
      forall s0, ls, chain | Init(s0) && s0.exitReleases && |s0.producers| == producers && CanRun(s0, ls)
        ensures !LockCycle(Exec(s0, ls), chain)
      {
        SoloNoLockCycle(s0, ls, chain);
      }
    } else {
      var s0, s' := TwoProducersDeadlock(size, producers, workers, true);
      ReachDeadlocks(s0, s', size - 1, [Prod(0), Prod(1), Prod(0)]);
    }
  }
}
