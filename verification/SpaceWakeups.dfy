/** Exactly when the "queue has space" signal can be lost: a dequeue signals one waiting producer,
    and only when it lowers the flag, so a second waiter can be left behind beside a free slot. */
module SpaceWakeups {
  import opened Wrappers
  import opened Tally
  import opened RingBuffer
  import opened Monitor
  import opened PoolTheorems

  /** A producer waits for space although a slot is free. */
  ghost predicate SpaceLost(s: State)
    requires s.ring.Valid()
  {
    !s.ring.Full() && exists p: nat :: At(s, p, Blocked)
  }

  ghost predicate BothHaveTasks(s: State, p: nat, q: nat) {
    p < q < |s.producers| && s.producers[p].todo != [] && s.producers[q].todo != []
  }

  /** Two producers with something to add, and enough tasks to fill the ring and leave each of the two one. */
  ghost predicate Contended(s: State) {
    (exists p: nat, q: nat :: BothHaveTasks(s, p, q)) && Sum(s.producers, TodoWeight) >= s.ring.Size() + 1
  }

  lemma SumOfPair(ps: seq<Producer>, p: nat, q: nat)
    requires p < q < |ps|
    ensures Sum(ps, TodoWeight) >= |ps[p].todo| + |ps[q].todo|
  {
    SumAtLeastTwo(ps, p, q, Producer(Ready, []), TodoWeight);
  }

  // ----- a loss needs contention -----

  /** A state s reached from s0: tasks are only moved from the lists to the ring, and if two
      producers wait, or one waits beside a free slot, then s0 was contended. */
  ghost predicate Since(s0: State, s: State) {
    && s.ring.Valid() && s.ring.Size() == s0.ring.Size() && |s.producers| == |s0.producers|
    && Sum(s.producers, TodoWeight) + |s.stored| == Sum(s0.producers, TodoWeight)
    && (forall p | 0 <= p < |s.producers| ::
          && |s.producers[p].todo| <= |s0.producers[p].todo|
          && (s.producers[p].phase == Blocked ==> s.producers[p].todo != []))
    && (!Contended(s0) ==> !SpaceLost(s) && forall p: nat, q: nat | p < q :: !(At(s, p, Blocked) && At(s, q, Blocked)))
  }

  lemma TwoWaitersContend(s0: State, s: State, p: nat, q: nat)
    requires Inv(s) && Since(s0, s)
    requires s.ring.Full() && BothHaveTasks(s, p, q)
    ensures Contended(s0)
  {
    OccupancyBounds(s.ring);
    SumOfPair(s.producers, p, q);
    assert BothHaveTasks(s0, p, q);
  }

  lemma AddSince(s0: State, s: State, p: nat)
    requires Inv(s) && Since(s0, s) && Enabled(s, Add(p))
    ensures Since(s0, Apply(s, Add(p)))
  {
    var s' := Apply(s, Add(p));
    SumUpdate(s.producers, p, s'.producers[p], TodoWeight);
    if !Contended(s0) {
      if s.ring.fullFlag > 0 {
        forall a: nat, b: nat | a < b ensures !(At(s', a, Blocked) && At(s', b, Blocked)) {
          if At(s', a, Blocked) && At(s', b, Blocked) {
            TwoWaitersContend(s0, s, a, b);
          }
        }
      } else {
        forall a: nat ensures !At(s', a, Blocked) {
          assert At(s', a, Blocked) ==> At(s, a, Blocked);
        }
      }
    }
  }

  /** Without contention at most one producer waits, and then the next dequeue wakes it. */
  lemma LoneWaiterWoken(s0: State, s: State, w: nat, wake: Option<nat>, a: nat)
    requires Inv(s) && Since(s0, s) && Enabled(s, Dequeue(w, wake)) && !Contended(s0)
    ensures !At(Apply(s, Dequeue(w, wake)), a, Blocked)
  {
    HolderFindsTask(s, w);
    if At(s, a, Blocked) {
      assert s.ring.fullFlag > 0 && WakesProducer(s, wake);
      if wake.Some? {
        assert At(s, wake.value, Blocked);
      }
    }
  }

  lemma DequeueSince(s0: State, s: State, w: nat, wake: Option<nat>)
    requires Inv(s) && Since(s0, s) && Enabled(s, Dequeue(w, wake))
    ensures Since(s0, Apply(s, Dequeue(w, wake)))
  {
    HolderFindsTask(s, w);
    var s' := Apply(s, Dequeue(w, wake));
    if wake.Some? {
      SumUpdate(s.producers, wake.value, s'.producers[wake.value], TodoWeight);
    }
    if !Contended(s0) {
      forall a: nat ensures !At(s', a, Blocked) {
        LoneWaiterWoken(s0, s, w, wake, a);
      }
    }
  }

  /** Moving producer p to a phase other than waiting changes nothing. */
  lemma StillSince(s0: State, s: State, s': State, p: nat)
    requires Since(s0, s) && p < |s.producers|
    requires s'.ring == s.ring && s'.stored == s.stored
    requires exists phase :: phase != Blocked && s'.producers == SetPhase(s, p, phase)
    ensures Since(s0, s')
  {
    SumUpdate(s.producers, p, s'.producers[p], TodoWeight);
    assert forall a: nat :: At(s', a, Blocked) ==> At(s, a, Blocked);
  }

  lemma StepSince(s0: State, s: State, l: Label)
    requires Inv(s) && Since(s0, s) && Enabled(s, l)
    ensures Since(s0, Apply(s, l))
  {
    var s' := Apply(s, l);
    match l
    case Add(p) => AddSince(s0, s, p);
    case Dequeue(w, wake) => DequeueSince(s0, s, w, wake);
    case Raise(p) => StillSince(s0, s, s', p);
    case Signal(p, wake) => StillSince(s0, s, s', p);
    case SpuriousProducer(p) => StillSince(s0, s, s', p);
    case Check(w) => assert forall a: nat :: At(s', a, Blocked) ==> At(s, a, Blocked);
    case Finish(w) => assert forall a: nat :: At(s', a, Blocked) ==> At(s, a, Blocked);
    case SpuriousWorker(w) => assert forall a: nat :: At(s', a, Blocked) ==> At(s, a, Blocked);
  }

  lemma {:induction false} RunSince(s0: State, s: State, ls: seq<Label>)
    requires Inv(s) && Since(s0, s) && CanRun(s, ls)
    ensures Since(s0, Exec(s, ls))
    decreases |ls|
  {
    if ls != [] {
      StepInv(s, ls[0]);
      StepSince(s0, s, ls[0]);
      RunSince(s0, Apply(s, ls[0]), ls[1..]);
    }
  }

  // ----- contention suffices -----

  /** Nobody is in the middle of anything, and p and q still have something to add. */
  ghost predicate Filling(s: State, p: nat, q: nat) {
    && Inv(s)
    && (forall i | 0 <= i < |s.producers| :: s.producers[i].phase == Ready)
    && |s.workers| >= 1 && (forall w | 0 <= w < |s.workers| :: s.workers[w] == Checking)
    && BothHaveTasks(s, p, q)
  }

  lemma OnlyTheTwo(s: State, p: nat, q: nat)
    requires BothHaveTasks(s, p, q)
    requires forall i: nat | i < |s.producers| :: |s.producers[i].todo| < if i == p || i == q then 2 else 1
    ensures Sum(s.producers, TodoWeight) == 2
  {
    var none := Producer(Ready, []);
    SumUpdate(s.producers, p, none, TodoWeight);
    SumUpdate(s.producers[p := none], q, none, TodoWeight);
    SumUniform(s.producers[p := none][q := none], TodoWeight, 0);
  }

  /** Some producer can add a task and still leave p and q one each. */
  lemma SomeoneCanAdd(s: State, p: nat, q: nat) returns (i: nat)
    requires BothHaveTasks(s, p, q) && Sum(s.producers, TodoWeight) >= 3
    ensures i < |s.producers| && |s.producers[i].todo| >= (if i == p || i == q then 2 else 1)
  {
    if i: nat :| i < |s.producers| && |s.producers[i].todo| >= (if i == p || i == q then 2 else 1) {
      return i;
    } else {
      OnlyTheTwo(s, p, q);
      assert false;
    }
  }

  /** Producer i adds one task while every worker stays at its check. */
  lemma AddOnce(s: State, p: nat, q: nat, i: nat) returns (ls: seq<Label>)
    requires Filling(s, p, q) && !s.ring.Full()
    requires i < |s.producers| && |s.producers[i].todo| >= (if i == p || i == q then 2 else 1)
    ensures CanRun(s, ls) && Filling(Exec(s, ls), p, q)
    ensures |Exec(s, ls).ring.Contents()| == |s.ring.Contents()| + 1 && Exec(s, ls).ring.Size() == s.ring.Size()
    ensures Sum(Exec(s, ls).producers, TodoWeight) == Sum(s.producers, TodoWeight) - 1
  {
    var s1 := Apply(s, Add(i));
    StepInv(s, Add(i));
    var s2 := Apply(s1, Raise(i));
    StepInv(s1, Raise(i));
    var s3 := Apply(s2, Signal(i, None));
    StepInv(s2, Signal(i, None));
    RunStep(s2, Signal(i, None), []);
    RunStep(s1, Raise(i), [Signal(i, None)] + []);
    RunStep(s, Add(i), [Raise(i)] + ([Signal(i, None)] + []));
    ls := [Add(i)] + ([Raise(i)] + ([Signal(i, None)] + []));
    StoreAppends(s.ring, s.producers[i].todo[0]);
    SumUpdate(s.producers, i, s3.producers[i], TodoWeight);
    assert s3.producers == s.producers[i := s3.producers[i]];
  }

  lemma {:induction false} FillRing(s: State, p: nat, q: nat) returns (ls: seq<Label>)
    requires Filling(s, p, q)
    requires Sum(s.producers, TodoWeight) + |s.ring.Contents()| >= s.ring.Size() + 1
    ensures CanRun(s, ls) && Filling(Exec(s, ls), p, q) && Exec(s, ls).ring.Full()
    decreases s.ring.Size() - |s.ring.Contents()|
  {
    OccupancyBounds(s.ring);
    if s.ring.Full() {
      ls := [];
    } else {
      var i := SomeoneCanAdd(s, p, q);
      var first := AddOnce(s, p, q, i);
      OccupancyBounds(Exec(s, first).ring);
      var rest := FillRing(Exec(s, first), p, q);
      RunConcat(s, first, rest);
      ls := first + rest;
    }
  }

  /** Both block on the full ring; one dequeue wakes p only. */
  lemma LoseSpace(s: State, p: nat, q: nat) returns (ls: seq<Label>)
    requires Filling(s, p, q) && s.ring.Full()
    ensures CanRun(s, ls) && Exec(s, ls).ring.Valid() && SpaceLost(Exec(s, ls))
  {
    var s1 := Apply(s, Add(p));
    var s2 := Apply(s1, Add(q));
    SumUniform(s.producers, StoredWeight, 0);
    SumUniform(s.workers, HoldingWeight, 0);
    OccupancyBounds(s.ring);
    var s3 := Apply(s2, Check(0));
    DropTakesHead(s3.ring);
    var deq := Dequeue(0, Some(p));
    assert At(Apply(s3, deq), q, Blocked);
    RunStep(s3, deq, []);
    RunStep(s2, Check(0), [deq] + []);
    RunStep(s1, Add(q), [Check(0)] + ([deq] + []));
    RunStep(s, Add(p), [Add(q)] + ([Check(0)] + ([deq] + [])));
    ls := [Add(p)] + ([Add(q)] + ([Check(0)] + ([deq] + [])));
  }

  /** Some run strands a producer beside a free slot if and only if two producers have tasks and the
      tasks are at least size + 1; in particular never with one producer. */
  lemma SpaceLostExactly(s0: State)
    requires Init(s0)
    ensures (exists ls | CanRun(s0, ls) :: Exec(s0, ls).ring.Valid() && SpaceLost(Exec(s0, ls))) <==> Contended(s0)
  {
    InitInv(s0);
    if Contended(s0) {
      var p: nat, q: nat :| BothHaveTasks(s0, p, q);
      var fill := FillRing(s0, p, q);
      var lose := LoseSpace(Exec(s0, fill), p, q);
      RunConcat(s0, fill, lose);
    } else {
      forall ls | CanRun(s0, ls) ensures Exec(s0, ls).ring.Valid() && !SpaceLost(Exec(s0, ls)) {
        RunInv(s0, ls);
        RunSince(s0, s0, ls);
      }
    }
  }

  // ----- the pool drains exactly when it is not contended -----

  /** Every task was stored, taken in the order stored, and its job run; 0 is the skipped sentinel. */
  ghost predicate Drained(s: State) {
    && (forall p | 0 <= p < |s.producers| :: s.producers[p].phase == Ready && s.producers[p].todo == [])
    && s.taken == s.stored
    && (forall t :: multiset(s.done)[t] == if t == 0 then 0 else multiset(s.stored)[t])
  }

  /** Producer q waits beside a free slot and nothing is on its way to wake it. */
  ghost predicate Stranded(s: State, q: nat) {
    && Inv(s) && WorkConserving(s) && |s.workers| >= 1
    && At(s, q, Blocked) && s.ring.fullFlag == 0
  }

  lemma StrandedStep(s: State, q: nat, l: Label)
    requires Stranded(s, q) && Enabled(s, l) && !l.Spurious() && (l.Add? ==> s.ring.Contents() == [])
    ensures Stranded(Apply(s, l), q)
  {
    StepInv(s, l);
    StepWorkConserving(s, l);
    if l.Add? {
      OccupancyBounds(s.ring);
      OccupancyBounds(Apply(s, l).ring);
      StoreAppends(s.ring, s.producers[l.p].todo[0]);
    }
  }

  /** Letting the workers finish before each add, the run ends with q still waiting. */
  lemma {:induction false} StrandForever(s: State, q: nat) returns (ls: seq<Label>)
    requires Stranded(s, q)
    ensures CanRun(s, ls) && Stuck(Exec(s, ls)) && At(Exec(s, ls), q, Blocked)
    decreases Rank(s)
  {
    RankNonNegative(s);
    if Stuck(s) {
      return [];
    }
    var l: Label :| !l.Spurious() && Enabled(s, l);
    if Settled(s) {
      SettledMeansDelivered(s);
    } else {
      l :| !l.Spurious() && !l.Add? && Enabled(s, l);
    }
    StrandedStep(s, q, l);
    RankFalls(s, l);
    RankNonNegative(Apply(s, l));
    var rest := StrandForever(Apply(s, l), q);
    RunStep(s, l, rest);
    ls := [l] + rest;
  }

  lemma UncontendedDrains(s0: State, ls: seq<Label>)
    requires Init(s0) && !Contended(s0) && CanRun(s0, ls) && Stuck(Exec(s0, ls))
    ensures Drained(Exec(s0, ls))
  {
    var s := Exec(s0, ls);
    InitInv(s0);
    RunWorkConserving(s0, ls);
    RunSince(s0, s0, ls);
    StuckMeansDelivered(s);
    OccupancyBounds(s.ring);
    forall p: nat | p < |s.producers| ensures s.producers[p].phase != Blocked {
      assert !At(s, p, Blocked);
    }
    forall t ensures multiset(s.done)[t] == if t == 0 then 0 else multiset(s.stored)[t] {
      assert JobCounted(s, t);
      SumUniform(s.workers, Runs(t), 0);
    }
  }

  lemma ContendedStrands(s0: State) returns (ls: seq<Label>)
    requires Init(s0) && Contended(s0)
    ensures CanRun(s0, ls) && Stuck(Exec(s0, ls)) && !Drained(Exec(s0, ls))
  {
    InitInv(s0);
    assert !SomeoneSleeps(s0);
    var p: nat, q: nat :| BothHaveTasks(s0, p, q);
    var fill := FillRing(s0, p, q);
    var lose := LoseSpace(Exec(s0, fill), p, q);
    RunConcat(s0, fill, lose);
    var s := Exec(s0, fill + lose);
    RunInv(s0, fill + lose);
    RunWorkConserving(s0, fill + lose);
    var z: nat :| At(s, z, Blocked);
    var rest := StrandForever(s, z);
    RunConcat(s0, fill + lose, rest);
    ls := fill + lose + rest;
  }

  /** For any number of producers and workers: every run that cannot be continued has delivered every
      task and run its job exactly once, if and only if the producers were not contended. */
  lemma DrainExactly(s0: State)
    requires Init(s0)
    ensures (forall ls | CanRun(s0, ls) && Stuck(Exec(s0, ls)) :: Drained(Exec(s0, ls))) <==> !Contended(s0)
  {
    if Contended(s0) {
      var ls := ContendedStrands(s0);
    } else {
      forall ls | CanRun(s0, ls) && Stuck(Exec(s0, ls)) ensures Drained(Exec(s0, ls)) {
        UncontendedDrains(s0, ls);
      }
    }
  }
}
