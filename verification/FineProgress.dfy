/** Progress of the code as written: every run without spurious wake-ups ends, whatever the threads, and
    in the safe regimes it ends with every task delivered. */
module FineProgress {
  import opened Wrappers
  import opened Tally
  import opened Fine
  import opened FineRefinement
  import M = Monitor
  import PoolTheorems

  // ----- a rank that falls on every step -----

  function ProducerAtRank(at: PStep): int {
    match at
    case PSpaceSleep => 0
    case PAwaitSpace => 1
    case PYieldQueue => 2
    case PStoreTask => 1
    case PUnlockFlag => 2
    case PTestFlag => 3
    case PLockFlag => 4
    case PRelockQueue => 4
    case PLockQueue => 5
    case PRelockFlag => 5
    case PSignalTask => 9
    case PUnlockReady => 10
    case PCountTask => 32
    case PLockReady => 33
    case PUnlockQueue => 34
    case PUnlockFlagAgain => 35
    case PRaiseFlag => 36
    case PLockFlagAgain => 37
    case PTestFull => 38
  }

  function ProducerRank(p: Producer): int { 38 * |p.todo| + ProducerAtRank(p.at) }

  function WorkerRank(at: WStep): int {
    match at
    case WTaskSleep => 0
    case WAwaitTask => 1
    case WTakeToken => 1
    case WTestReady => 2
    case WLockReady => 3
    case WRelockReady => 3
    case WRunJob(_) => 4
    case WUnlockFlag(_) => 5
    case WSignalSpace(_) => 11
    case WLowerFlag(_) => 12
    case WTestFlag(_) => 13
    case WLockFlag(_) => 14
    case WUnlockQueue(_) => 15
    case WMoveFront(_, _) => 16
    case WReadSlot(_) => 17
    case WTestEmpty(_) => 18
    case WLockQueue(_) => 19
    case WReadFront => 20
    case WUnlockReady => 21
  }

  /** Work left, counting what a ready task and a wake-up will set going. */
  ghost function Rank(s: State): int {
    Sum(s.producers, ProducerRank) + Sum(s.workers, WorkerRank) + 21 * s.ready
  }

  lemma RankNonNegative(s: State)
    requires s.ready >= 0
    ensures Rank(s) >= 0
  {
    SumNonNegative(s.producers, ProducerRank);
    SumNonNegative(s.workers, WorkerRank);
  }

  /** What a step costs the thread that takes it, apart from wake-ups. */
  lemma ProducerPays(s: State, p: nat, wake: Option<nat>)
    requires Shape(s) && Enabled(s, ProducerStep(p, wake))
    ensures p < |ProducerApply(s, p, wake).producers|
    ensures var s' := ProducerApply(s, p, wake);
      ProducerRank(s'.producers[p]) + 21 * (s'.ready - s.ready) + (if wake.Some? then 3 else 0)
        < ProducerRank(s.producers[p])
  {
  }

  lemma WorkerPays(s: State, w: nat, wake: Option<nat>)
    requires Shape(s) && Enabled(s, WorkerStep(w, wake))
    ensures w < |WorkerApply(s, w, wake).workers|
    ensures var s' := WorkerApply(s, w, wake);
      WorkerRank(s'.workers[w]) + 21 * (s'.ready - s.ready) + (if wake.Some? then 5 else 0) < WorkerRank(s.workers[w])
  {
  }

  lemma ProducerRankFalls(s: State, p: nat, wake: Option<nat>)
    requires Shape(s) && Enabled(s, ProducerStep(p, wake))
    ensures Rank(ProducerApply(s, p, wake)) < Rank(s)
  {
    hide ProducerApply;
    var s' := ProducerApply(s, p, wake);
    PendingStep(s, p, wake);
    ProducerPays(s, p, wake);
    SumUpdate(s.producers, p, s'.producers[p], ProducerRank);
    if wake.Some? {
      SumUpdate(s.workers, wake.value, WRelockReady, WorkerRank);
    }
  }

  lemma WorkerRankFalls(s: State, w: nat, wake: Option<nat>)
    requires Shape(s) && Enabled(s, WorkerStep(w, wake))
    ensures Rank(WorkerApply(s, w, wake)) < Rank(s)
  {
    hide WorkerApply;
    var s' := WorkerApply(s, w, wake);
    WorkerMovesItself(s, w, wake);
    WorkerWakesOne(s, w, wake);
    WorkerPays(s, w, wake);
    SumUpdate(s.workers, w, s'.workers[w], WorkerRank);
    if wake.Some? {
      SumUpdate(s.producers, wake.value, s.producers[wake.value].(at := PRelockFlag), ProducerRank);
    }
  }

  lemma WorkerWakesOne(s: State, w: nat, wake: Option<nat>)
    requires Shape(s) && Enabled(s, WorkerStep(w, wake))
    ensures wake.Some? ==> wake.value < |s.producers| && s.producers[wake.value].at == PSpaceSleep
    ensures WorkerApply(s, w, wake).producers ==
      if wake.Some? then s.producers[wake.value := s.producers[wake.value].(at := PRelockFlag)] else s.producers
  {
  }

  ghost predicate Spurious(l: Label) { l.SpuriousProducer? || l.SpuriousWorker? }

  /** The rank falls on every step but a spurious wake-up, for any number of producers and workers, in any
      regime, however the empty exit is read. */
  lemma FineRankFalls(s: State, l: Label)
    requires Shape(s) && Enabled(s, l) && !Spurious(l)
    ensures Rank(Apply(s, l)) < Rank(s)
  {
    match l
    case ProducerStep(p, wake) => ProducerRankFalls(s, p, wake);
    case WorkerStep(w, wake) => WorkerRankFalls(s, w, wake);
  }

  lemma {:induction false} RunBounded(s: State, ls: seq<Label>)
    requires LocksHeld(s) && ReadyInv(s) && CanRun(s, ls) && forall i | 0 <= i < |ls| :: !Spurious(ls[i])
    ensures |ls| <= Rank(s)
    decreases |ls|
  {
    hide Apply, Enabled, LocksHeld, Shape;
    if ls == [] {
      RankNonNegative(s);
    } else {
      StepLocks(s, ls[0]);
      StepReady(s, ls[0]);
      FineRankFalls(s, ls[0]);
      assert forall i | 0 <= i < |ls[1..]| :: ls[1..][i] == ls[i + 1];
      RunBounded(Apply(s, ls[0]), ls[1..]);
    }
  }

  function TodoWeight(p: Producer): int { |p.todo| }

  lemma {:induction false} RankOfStart(ps: seq<Producer>)
    requires forall p | 0 <= p < |ps| :: ps[p].at == PLockQueue
    ensures Sum(ps, ProducerRank) == 38 * Sum(ps, TodoWeight) + 5 * |ps|
  {
    if ps != [] {
      assert forall p | 0 <= p < |ps[1..]| :: ps[1..][p] == ps[p + 1];
      RankOfStart(ps[1..]);
    }
  }

  /** Every run of the code as written ends: n tasks, P producers and W workers make at most
      38n + 5P + 3W steps, apart from spurious wake-ups. */
  lemma {:induction false} EveryFineRunEnds(s0: State, ls: seq<Label>)
    requires Init(s0) && CanRun(s0, ls) && forall i | 0 <= i < |ls| :: !Spurious(ls[i])
    ensures |ls| <= 38 * Sum(s0.producers, TodoWeight) + 5 * |s0.producers| + 3 * |s0.workers|
  {
    RunBounded(s0, ls);
    RankOfStart(s0.producers);
    SumUniform(s0.workers, WorkerRank, 3);
  }

  // ----- a safe run ends with everything delivered -----

  /** No step but a spurious wake-up is possible. */
  ghost predicate Stuck(s: State) {
    forall l :: !Spurious(l) ==> !Enabled(s, l)
  }

  /** A worker that neither sleeps nor waits for a lock that somebody owns can step. */
  lemma WorkerCanStep(s: State, w: nat) returns (l: Label)
    requires Calm(s) && w < |s.workers| && s.workers[w] != WTaskSleep
    requires WWants(s.workers[w]).Some? ==> Owner(s, WWants(s.workers[w]).value) == None
    ensures !Spurious(l) && Enabled(s, l)
  {
    assert WorkerUpToDate(s.ring, s.workers[w]);
    l := WorkerStep(w, None);
  }

  lemma ProducerCanStep(s: State, p: nat) returns (l: Label)
    requires Calm(s) && p < |s.producers| && (s.producers[p].at == PLockQueue ==> s.producers[p].todo != [])
    requires PWants(s.producers[p].at).Some? ==> Owner(s, PWants(s.producers[p].at).value) == None
    ensures !Spurious(l) && Enabled(s, l)
  {
    if w: nat :| s.producers[p].at == PSignalTask && w < |s.workers| && s.workers[w] == WTaskSleep {
      l := ProducerStep(p, Some(w));
    } else {
      l := ProducerStep(p, None);
    }
  }

  /** In a stuck state nobody owns a lock: an owner could step, or would wait for a lock whose owner could. */
  lemma StuckOwnsNothing(s: State, m: Mutex)
    requires Calm(s) && OwnersHold(s) && Stuck(s)
    ensures Owner(s, m) == None
    decreases m == QueueM
  {
    if m == QueueM {
      StuckOwnsNothing(s, FlagM);
    }
    if Owner(s, m).Some? {
      var t := Owner(s, m).value;
      assert Inside(s, t, m);
      match t {
        case Prod(p) => var _ := ProducerCanStep(s, p);
        case Work(w) => var _ := WorkerCanStep(s, w);
      }
    }
  }

  /** So everybody sleeps or has nothing to add. */
  lemma StuckRests(s: State)
    requires Calm(s) && OwnersHold(s) && Stuck(s)
    ensures forall w: nat | w < |s.workers| :: s.workers[w] == WTaskSleep
    ensures forall p: nat | p < |s.producers| :: s.producers[p].at == PLockQueue && s.producers[p].todo == []
  {
    forall m ensures Owner(s, m) == None {
      StuckOwnsNothing(s, m);
    }
    forall w: nat | w < |s.workers| ensures s.workers[w] == WTaskSleep {
      if s.workers[w] != WTaskSleep {
        var _ := WorkerCanStep(s, w);
      }
    }
    forall p: nat | p < |s.producers| ensures s.producers[p].at == PLockQueue && s.producers[p].todo == [] {
      if !(s.producers[p].at == PLockQueue && s.producers[p].todo == []) {
        var _ := ProducerCanStep(s, p);
      }
    }
  }

  /** In a safe regime no worker leaves the queue lock behind. */
  lemma {:induction false} RunOwnersCalm(s: State, k: nat, ls: seq<Label>)
    requires Calm(s) && OwnersHold(s) && CanRun(s, ls) && BoundedRun(s, ls, k)
    requires Safe(s.ring.Size(), |s.workers|, k)
    ensures OwnersHold(Exec(s, ls)) && |Exec(s, ls).workers| == |s.workers|
    decreases |ls|
  {
    hide Apply, LocksHeld, OwnersHold, M.Inv;
    if ls != [] {
      var l := ls[0];
      if l.WorkerStep? && s.workers[l.w].WTestEmpty? {
        NeverEmpty(s, l.w);
      }
      StepOwners(s, l);
      StepSimulated(s, k, l);
      StepShape(s, l);
      RunOwnersCalm(Apply(s, l), k, ls[1..]);
    }
  }

  /** In a safe regime, a run of the code as written that cannot go on has delivered every task in order and
      run its job exactly once, every worker is back asleep, and no lock is held. */
  lemma {:induction false} SafeRunsDrain(s0: State, k: nat, ls: seq<Label>)
    requires Init(s0) && CanRun(s0, ls) && BoundedRun(s0, ls, k) && Safe(s0.ring.Size(), |s0.workers|, k)
    ensures Stuck(Exec(s0, ls)) ==>
      var s := Exec(s0, ls);
      && (forall p | 0 <= p < |s.producers| :: s.producers[p].todo == []) && s.taken == s.stored
      && (forall t :: multiset(s.done)[t] == if t == 0 then 0 else multiset(s.stored)[t])
      && (forall w | 0 <= w < |s.workers| :: s.workers[w] == WTaskSleep)
      && s.queueLock == s.flagLock == s.readyLock == None
  {
    hide Calm, OwnersHold, M.CanRun, M.Exec, M.Init;
    InitCalm(s0);
    assert OwnersHold(s0) by {
      InitOwners(s0);
    }
    var ms := RunSimulated(s0, k, ls);
    RunOwnersCalm(s0, k, ls);
    var s := Exec(s0, ls);
    if Stuck(s) {
      StuckRests(s);
      StuckOwnsNothing(s, QueueM);
      StuckOwnsNothing(s, FlagM);
      StuckOwnsNothing(s, ReadyM);
      RestIsDelivered(s0, s, ms);
    }
  }

  lemma InitOwners(s0: State)
    requires Init(s0)
    ensures OwnersHold(s0)
  {
    assert forall m :: Owner(s0, m) == None;
  }

  /** The monitor state of a resting pool is stuck, so it has delivered everything. */
  lemma RestIsDelivered(s0: State, s: State, ms: seq<M.Label>)
    requires M.Init(Abs(s0)) && M.CanRun(Abs(s0), ms) && M.Exec(Abs(s0), ms) == Abs(s)
    requires forall w: nat | w < |s.workers| :: s.workers[w] == WTaskSleep
    requires forall p: nat | p < |s.producers| :: s.producers[p].at == PLockQueue && s.producers[p].todo == []
    ensures s.taken == s.stored && forall t :: multiset(s.done)[t] == if t == 0 then 0 else multiset(s.stored)[t]
  {
    M.InitInv(Abs(s0));
    assert !PoolTheorems.SomeoneSleeps(Abs(s0));
    PoolTheorems.RunWorkConserving(Abs(s0), ms);
    assert PoolTheorems.Stuck(Abs(s));
    PoolTheorems.StuckMeansDelivered(Abs(s));
    forall t ensures multiset(s.done)[t] == if t == 0 then 0 else multiset(s.stored)[t] {
      assert M.JobCounted(Abs(s), t);
      SumUniform(Abs(s).workers, M.Runs(t), 0);
    }
  }
}
