/** What the monitor-level pool guarantees over whole runs: order, capacity, wake-ups, progress,
    termination and drain. */
module PoolTheorems {
  import opened Wrappers
  import opened Tally
  import opened RingBuffer
  import opened Monitor

  // ----- every run: order, capacity, flag -----

  /** Over any interleaving of any producers and workers the tasks taken are, in order, a prefix of
      the tasks stored and the ring holds the rest; the flag is exact; the counters stay below the
      ring size; and no worker ever keeps the queue lock. */
  lemma {:induction false} EveryRunIsFifo(s0: State, ls: seq<Label>)
    requires Init(s0) && CanRun(s0, ls)
    ensures var s := Exec(s0, ls);
      && s.ring.Valid()
      && s.taken + s.ring.Contents() == s.stored
      && s.ring.fullFlag == (if s.ring.Full() then 1 else 0)
      && 0 <= s.ready <= |s.ring.Contents()| <= s.ring.Size() - 1
      && !s.lockKept
  {
    InitInv(s0);
    RunInv(s0, ls);
    var s := Exec(s0, ls);
    OccupancyBounds(s.ring);
    ProducerWeights(s);
    WorkerWeights(s);
  }

  /** A store never lands on a slot that still holds a queued task. */
  lemma StoreHitsFreeSlot(s: State, p: nat, k: nat)
    requires Inv(s) && Enabled(s, Add(p)) && s.ring.fullFlag <= 0
    requires k < |s.ring.Contents()|
    ensures (s.ring.front + k) % s.ring.Size() != s.ring.back
  {
    Wrapped(s.ring.front + k, s.ring.Size());
  }

  // ----- worker wake-ups -----

  function CheckingWeight(w: Worker): int { if w == Checking then 1 else 0 }

  function RaisedWeight(p: Producer): int { if p.phase == Raised then 1 else 0 }

  ghost predicate SomeoneSleeps(s: State) {
    exists w: nat :: w < |s.workers| && s.workers[w] == Asleep
  }

  /** While anyone sleeps, each ready token has a worker at its check or a signal on its way. */
  ghost predicate WorkConserving(s: State) {
    SomeoneSleeps(s) ==> s.ready <= Sum(s.workers, CheckingWeight) + Sum(s.producers, RaisedWeight)
  }

  lemma CheckingUpdate(s: State, w: nat, v: Worker)
    requires w < |s.workers|
    ensures Sum(s.workers[w := v], CheckingWeight)
         == Sum(s.workers, CheckingWeight) - CheckingWeight(s.workers[w]) + CheckingWeight(v)
  {
    SumUpdate(s.workers, w, v, CheckingWeight);
  }

  lemma RaisedUpdate(s: State, p: nat, v: Producer)
    requires p < |s.producers|
    ensures Sum(s.producers[p := v], RaisedWeight)
         == Sum(s.producers, RaisedWeight) - RaisedWeight(s.producers[p]) + RaisedWeight(v)
  {
    SumUpdate(s.producers, p, v, RaisedWeight);
  }

  lemma AwakeNonNegative(s: State)
    ensures Sum(s.workers, CheckingWeight) >= 0 && Sum(s.producers, RaisedWeight) >= 0
  {
    SumNonNegative(s.workers, CheckingWeight);
    SumNonNegative(s.producers, RaisedWeight);
  }

  lemma ProducerConserves(s: State, l: Label)
    requires s.ring.Valid() && WorkConserving(s) && Enabled(s, l)
    requires l.Add? || l.Raise? || l.Signal? || l.SpuriousProducer?
    ensures WorkConserving(Apply(s, l))
  {
    var s' := Apply(s, l);
    RaisedUpdate(s, l.p, s'.producers[l.p]);
    if l.Signal? && l.wakeWorker.Some? {
      CheckingUpdate(s, l.wakeWorker.value, Checking);
    }
    if SomeoneSleeps(s') {
      var z: nat :| z < |s'.workers| && s'.workers[z] == Asleep;
      assert s.workers[z] == Asleep;
    }
  }

  lemma WorkerConserves(s: State, l: Label)
    requires Inv(s) && WorkConserving(s) && Enabled(s, l) && (l.Check? || l.Finish? || l.SpuriousWorker?)
    ensures WorkConserving(Apply(s, l))
  {
    var s' := Apply(s, l);
    CheckingUpdate(s, l.w, s'.workers[l.w]);
    AwakeNonNegative(s');
    if SomeoneSleeps(s') {
      var z: nat :| z < |s'.workers| && s'.workers[z] == Asleep;
      assert s.workers[z] == Asleep || (l.Check? && s.ready == 0);
    }
  }

  lemma DequeueConserves(s: State, w: nat, wake: Option<nat>)
    requires s.ring.Valid() && WorkConserving(s) && Enabled(s, Dequeue(w, wake))
    ensures WorkConserving(Apply(s, Dequeue(w, wake)))
  {
    var s' := Apply(s, Dequeue(w, wake));
    CheckingUpdate(s, w, s'.workers[w]);
    if wake.Some? {
      RaisedUpdate(s, wake.value, s.producers[wake.value].(phase := Ready));
    }
    if SomeoneSleeps(s') {
      var z: nat :| z < |s'.workers| && s'.workers[z] == Asleep;
      assert s.workers[z] == Asleep;
    }
  }

  lemma StepWorkConserving(s: State, l: Label)
    requires Inv(s) && WorkConserving(s) && Enabled(s, l)
    ensures WorkConserving(Apply(s, l))
  {
    if l.Dequeue? {
      DequeueConserves(s, l.w, l.wakeProducer);
    } else if l.Check? || l.Finish? || l.SpuriousWorker? {
      WorkerConserves(s, l);
    } else {
      ProducerConserves(s, l);
    }
  }

  lemma {:induction false} RunWorkConserving(s: State, ls: seq<Label>)
    requires Inv(s) && WorkConserving(s) && CanRun(s, ls)
    ensures Inv(Exec(s, ls)) && WorkConserving(Exec(s, ls)) && |Exec(s, ls).workers| == |s.workers|
    decreases |ls|
  {
    if ls != [] {
      StepInv(s, ls[0]);
      StepWorkConserving(s, ls[0]);
      RunWorkConserving(Apply(s, ls[0]), ls[1..]);
    }
  }

  // ----- progress -----

  /** No step other than a spurious wake-up is possible. */
  ghost predicate Stuck(s: State) {
    forall l: Label :: !l.Spurious() ==> !Enabled(s, l)
  }

  /** At most adds are possible. */
  ghost predicate Settled(s: State) {
    forall l: Label :: !l.Spurious() && !l.Add? ==> !Enabled(s, l)
  }

  /** A worker that does not sleep can step. */
  lemma WorkerCanStep(s: State, w: nat) returns (l: Label)
    requires Inv(s) && w < |s.workers| && s.workers[w] != Asleep
    ensures !l.Spurious() && !l.Add? && Enabled(s, l)
  {
    match s.workers[w]
    case Checking => l := Check(w);
    case Running(_) => l := Finish(w);
    case Holding =>
      HolderFindsTask(s, w);
      if p: nat :| s.ring.fullFlag > 0 && p < |s.producers| && s.producers[p].phase == Blocked {
        l := Dequeue(w, Some(p));
      } else {
        l := Dequeue(w, None);
      }
  }

  /** A producer that has stored and not yet signalled can step. */
  lemma ProducerCanStep(s: State, p: nat) returns (l: Label)
    requires p < |s.producers| && (s.producers[p].phase == Stored || s.producers[p].phase == Raised)
    ensures !l.Spurious() && !l.Add? && Enabled(s, l)
  {
    if s.producers[p].phase == Stored {
      l := Raise(p);
    } else if w: nat :| w < |s.workers| && s.workers[w] == Asleep {
      l := Signal(p, Some(w));
    } else {
      l := Signal(p, None);
    }
  }

  /** With any number of producers, a pool in which at most adds are possible has delivered everything
      it stored: the ring is empty, all workers sleep, and producers only wait or have yet to add. */
  lemma SettledMeansDelivered(s: State)
    requires Inv(s) && WorkConserving(s) && |s.workers| >= 1 && Settled(s)
    ensures forall w: nat | w < |s.workers| :: s.workers[w] == Asleep
    ensures forall p: nat | p < |s.producers| :: s.producers[p].phase == Blocked || s.producers[p].phase == Ready
    ensures s.ring.Contents() == [] && s.ready == 0 && s.ring.fullFlag == 0 && s.taken == s.stored
  {
    forall w: nat | w < |s.workers| ensures s.workers[w] == Asleep {
      if s.workers[w] != Asleep {
        var _ := WorkerCanStep(s, w);
      }
    }
    forall p: nat | p < |s.producers| ensures s.producers[p].phase == Blocked || s.producers[p].phase == Ready {
      if s.producers[p].phase == Stored || s.producers[p].phase == Raised {
        var _ := ProducerCanStep(s, p);
      }
    }
    assert s.workers[0] == Asleep;
    SumUniform(s.workers, CheckingWeight, 0);
    SumUniform(s.workers, HoldingWeight, 0);
    SumUniform(s.producers, RaisedWeight, 0);
    SumUniform(s.producers, StoredWeight, 0);
    OccupancyBounds(s.ring);
  }

  /** So a pool that cannot step at all can only have left producers waiting for space. */
  lemma StuckMeansDelivered(s: State)
    requires Inv(s) && WorkConserving(s) && |s.workers| >= 1 && Stuck(s)
    ensures forall w: nat | w < |s.workers| :: s.workers[w] == Asleep
    ensures forall p: nat | p < |s.producers| ::
      s.producers[p].phase == Blocked || (s.producers[p].phase == Ready && s.producers[p].todo == [])
    ensures s.ring.Contents() == [] && s.ready == 0 && s.ring.fullFlag == 0 && s.taken == s.stored
  {
    SettledMeansDelivered(s);
    forall p: nat | p < |s.producers| && s.producers[p].phase == Ready ensures s.producers[p].todo == [] {
      assert !Enabled(s, Add(p));
    }
  }

  // ----- one producer: no lost "space" wake-up, no stuck state -----

  /** One producer adding `tasks`: what it stored and what it still has to add make up the list, and
      while it waits for space the ring is full. */
  ghost predicate Solo(s: State, tasks: seq<int>)
    requires s.ring.Valid()
  {
    && |s.producers| == 1
    && s.stored + s.producers[0].todo == tasks
    && (s.producers[0].phase == Blocked ==> s.ring.Full() && s.producers[0].todo != [])
  }

  lemma StepSolo(s: State, l: Label, tasks: seq<int>)
    requires Inv(s) && Solo(s, tasks) && Enabled(s, l)
    ensures Apply(s, l).ring.Valid() && Solo(Apply(s, l), tasks)
  {
    var todo := s.producers[0].todo;
    match l
    case Add(p) =>
      if s.ring.fullFlag <= 0 {
        assert s.stored + todo == (s.stored + [todo[0]]) + todo[1..];
      }
    case Dequeue(w, wake) =>
      DequeueInv(s, w, wake);
      DropTakesHead(s.ring);
      assert wake.None? && s.ring.fullFlag > 0 ==> s.producers[0].phase != Blocked;
    case _ =>
  }

  lemma {:induction false} RunSolo(s: State, ls: seq<Label>, tasks: seq<int>)
    requires Inv(s) && WorkConserving(s) && Solo(s, tasks) && CanRun(s, ls)
    ensures Inv(Exec(s, ls)) && WorkConserving(Exec(s, ls)) && Solo(Exec(s, ls), tasks)
    ensures |Exec(s, ls).workers| == |s.workers|
    decreases |ls|
  {
    if ls != [] {
      StepInv(s, ls[0]);
      StepWorkConserving(s, ls[0]);
      StepSolo(s, ls[0], tasks);
      RunSolo(Apply(s, ls[0]), ls[1..], tasks);
    }
  }

  lemma InitSolo(s0: State)
    requires Init(s0) && |s0.producers| == 1
    ensures Inv(s0) && WorkConserving(s0) && Solo(s0, s0.producers[0].todo)
  {
    InitInv(s0);
    assert !SomeoneSleeps(s0);
    assert s0.stored + s0.producers[0].todo == s0.producers[0].todo;
  }

  /** A lone producer waits for space only while the flag is up and the ring holds size - 1 tasks,
      and the dequeue that ends the fullness is also the one that wakes it. */
  lemma {:induction false} SoloSpaceWakeup(s0: State, ls: seq<Label>)
    requires Init(s0) && |s0.producers| == 1 && CanRun(s0, ls)
    ensures var s := Exec(s0, ls);
      s.producers != [] && s.ring.Valid() &&
      (s.producers[0].phase == Blocked ==>
         && s.ring.fullFlag == 1 && |s.ring.Contents()| == s.ring.Size() - 1
         && forall w, wake | Enabled(s, Dequeue(w, wake)) ::
              var s' := Apply(s, Dequeue(w, wake));
              wake == Some(0) && s'.ring.fullFlag == 0 && s'.producers[0].phase == Ready)
  {
    InitSolo(s0);
    RunSolo(s0, ls, s0.producers[0].todo);
    var s := Exec(s0, ls);
    OccupancyBounds(s.ring);
    if s.producers[0].phase == Blocked {
      forall w, wake | Enabled(s, Dequeue(w, wake))
        ensures var s' := Apply(s, Dequeue(w, wake));
          wake == Some(0) && s'.ring.fullFlag == 0 && s'.producers[0].phase == Ready
      {
        HolderFindsTask(s, w);
      }
    }
  }

  /** With one producer, a reachable state in which a task is undelivered, a job is running, an add
      is pending or unfinished, can always step. */
  lemma {:induction false} SoloNeverStuck(s0: State, ls: seq<Label>)
    requires Init(s0) && |s0.producers| == 1 && CanRun(s0, ls)
    ensures var s := Exec(s0, ls);
      s.producers != [] && s.ring.Valid() &&
      (s.ring.Contents() != [] || s.producers[0] != Producer(Ready, [])
         || (exists w: nat :: w < |s.workers| && s.workers[w] != Asleep)
       ==> exists l: Label :: !l.Spurious() && Enabled(s, l))
  {
    InitSolo(s0);
    RunSolo(s0, ls, s0.producers[0].todo);
    var s := Exec(s0, ls);
    if Stuck(s) {
      StuckMeansDelivered(s);
    }
  }

  // ----- termination -----

  function ProducerRank(p: Producer): int {
    8 * |p.todo| + match p.phase case Ready => 1 case Blocked => 0 case Stored => 8 case Raised => 3
  }

  function WorkerRank(w: Worker): int {
    match w case Asleep => 0 case Checking => 1 case Holding => 4 case Running(_) => 2
  }

  /** Work left: falls on every step but a spurious wake-up. */
  ghost function Rank(s: State): int {
    Sum(s.producers, ProducerRank) + Sum(s.workers, WorkerRank) + 4 * s.ready
  }

  lemma RankNonNegative(s: State)
    requires s.ready >= 0
    ensures Rank(s) >= 0
  {
    SumNonNegative(s.producers, ProducerRank);
    SumNonNegative(s.workers, WorkerRank);
  }

  lemma RankFalls(s: State, l: Label)
    requires Inv(s) && Enabled(s, l) && !l.Spurious()
    ensures Rank(Apply(s, l)) < Rank(s)
  {
    var s' := Apply(s, l);
    match l
    case Add(p) => SumUpdate(s.producers, p, s'.producers[p], ProducerRank);
    case Raise(p) => SumUpdate(s.producers, p, s'.producers[p], ProducerRank);
    case Signal(p, wake) =>
      SumUpdate(s.producers, p, s'.producers[p], ProducerRank);
      if wake.Some? {
        SumUpdate(s.workers, wake.value, Checking, WorkerRank);
      }
    case Check(w) => SumUpdate(s.workers, w, s'.workers[w], WorkerRank);
    case Dequeue(w, wake) =>
      HolderFindsTask(s, w);
      SumUpdate(s.workers, w, s'.workers[w], WorkerRank);
      if wake.Some? {
        SumUpdate(s.producers, wake.value, s'.producers[wake.value], ProducerRank);
      }
    case Finish(w) => SumUpdate(s.workers, w, Checking, WorkerRank);
  }

  lemma {:induction false} RunBounded(s: State, ls: seq<Label>)
    requires Inv(s) && CanRun(s, ls) && NoSpurious(ls)
    ensures |ls| <= Rank(s)
    decreases |ls|
  {
    if ls == [] {
      RankNonNegative(s);
    } else {
      StepInv(s, ls[0]);
      RankFalls(s, ls[0]);
      forall i | 0 <= i < |ls[1..]| ensures !ls[1..][i].Spurious() {
        assert ls[1..][i] == ls[i + 1];
      }
      RunBounded(Apply(s, ls[0]), ls[1..]);
    }
  }

  function TodoWeight(p: Producer): int { |p.todo| }

  lemma {:induction false} RankOfReady(ps: seq<Producer>)
    requires forall p | 0 <= p < |ps| :: ps[p].phase == Ready
    ensures Sum(ps, ProducerRank) == 8 * Sum(ps, TodoWeight) + |ps|
  {
    if ps != [] {
      assert forall p | 0 <= p < |ps[1..]| :: ps[1..][p] == ps[p + 1];
      RankOfReady(ps[1..]);
    }
  }

  /** Whatever the number of producers, n tasks take at most 8n steps, and one more for each thread. */
  lemma {:induction false} EveryRunEnds(s0: State, ls: seq<Label>)
    requires Init(s0) && CanRun(s0, ls) && NoSpurious(ls)
    ensures |ls| <= 8 * Sum(s0.producers, TodoWeight) + |s0.producers| + |s0.workers|
  {
    InitInv(s0);
    RunBounded(s0, ls);
    RankOfReady(s0.producers);
    SumUniform(s0.workers, WorkerRank, 1);
  }

  /** With one producer, a run that cannot be continued has stored and taken the tasks in the order
      given and run the job of each nonzero task exactly as often as it was given, and every worker
      is back asleep. */
  lemma {:induction false} SoloDrain(s0: State, ls: seq<Label>)
    requires Init(s0) && |s0.producers| == 1 && CanRun(s0, ls)
    ensures Stuck(Exec(s0, ls)) ==>
      var s, tasks := Exec(s0, ls), s0.producers[0].todo;
      && s.stored == tasks && s.taken == tasks
      && (forall t :: multiset(s.done)[t] == if t == 0 then 0 else multiset(tasks)[t])
      && (forall w | 0 <= w < |s.workers| :: s.workers[w] == Asleep)
  {
    var tasks := s0.producers[0].todo;
    InitSolo(s0);
    RunSolo(s0, ls, tasks);
    var s := Exec(s0, ls);
    if Stuck(s) {
      StuckMeansDelivered(s);
      assert s.producers[0].todo == [];
      forall t ensures multiset(s.done)[t] == if t == 0 then 0 else multiset(tasks)[t] {
        assert JobCounted(s, t);
        SumUniform(s.workers, Runs(t), 0);
      }
    }
  }
  /** A thread woken by chance tests again: with the flag up, or without a token, it is back asleep after one
      step and nothing has changed; otherwise that step stores the task or takes the token. */
  lemma SpuriousIsHarmless(s: State, l: Label)
    requires s.ring.Valid() && Enabled(s, l) && l.Spurious()
    ensures var s' := Apply(s, l);
      match l
      case SpuriousProducer(p) =>
        s.producers[p].todo != [] && !s.lockKept ==>
          && Enabled(s', Add(p))
          && var s'' := Apply(s', Add(p));
          if s.ring.fullFlag > 0 then s'' == s
          else
            && s''.producers == s.producers[p := Producer(Stored, s.producers[p].todo[1..])]
            && s''.stored == s.stored + [s.producers[p].todo[0]]
      case SpuriousWorker(w) =>
        && Enabled(s', Check(w))
        && Apply(s', Check(w)) ==
           (if s.ready <= 0 then s else s.(ready := s.ready - 1, workers := s.workers[w := Holding]))
      case _ => false
  {
    match l
    case SpuriousProducer(p) =>
      if s.producers[p].todo != [] && !s.lockKept {
        assert Apply(Apply(s, l), Add(p)).producers[p].phase == (if s.ring.fullFlag > 0 then Blocked else Stored);
        assert s.ring.fullFlag > 0 ==> Apply(Apply(s, l), Add(p)).producers == s.producers;
      }
    case SpuriousWorker(w) =>
      assert s.workers[w := Checking][w := Asleep] == s.workers;
      assert s.workers[w := Checking][w := Holding] == s.workers[w := Holding];
  }
}
