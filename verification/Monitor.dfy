/** The thread pool at monitor granularity: "check full, then store" is one step that stores or
    blocks, raising the ready counter and signalling are two steps, a worker's check takes a token
    or sleeps, and a dequeue is one step. Any number of producers and workers. */
module Monitor {
  import opened Wrappers
  import opened Tally
  import opened RingBuffer

  datatype Phase = Ready | Blocked | Stored | Raised

  datatype Producer = Producer(phase: Phase, todo: seq<int>)

  datatype Worker = Checking | Asleep | Holding | Running(task: int)

  /** `stored`, `taken` and `done` are the histories of stores, dequeues and finished jobs;
      `lockKept` says that the empty exit of a dequeue has left the queue locked. */
  datatype State = State(
    ring: Ring, ready: int, lockKept: bool, producers: seq<Producer>, workers: seq<Worker>,
    stored: seq<int>, taken: seq<int>, done: seq<int>)

  datatype Label =
    | Add(p: nat)
    | Raise(p: nat)
    | Signal(p: nat, wakeWorker: Option<nat>)
    | Check(w: nat)
    | Dequeue(w: nat, wakeProducer: Option<nat>)
    | Finish(w: nat)
    | SpuriousProducer(p: nat)
    | SpuriousWorker(w: nat)
  {
    predicate Spurious() { SpuriousProducer? || SpuriousWorker? }
  }

  // ----- steps -----

  /** A signal wakes one sleeper, and none only if nobody sleeps. */
  predicate WakesWorker(s: State, wake: Option<nat>) {
    match wake
    case Some(w) => w < |s.workers| && s.workers[w] == Asleep
    case None => forall w: nat | w < |s.workers| :: s.workers[w] != Asleep
  }

  predicate WakesProducer(s: State, wake: Option<nat>) {
    match wake
    case Some(p) => p < |s.producers| && s.producers[p].phase == Blocked
    case None => forall p: nat | p < |s.producers| :: s.producers[p].phase != Blocked
  }

  predicate At(s: State, p: nat, phase: Phase) {
    p < |s.producers| && s.producers[p].phase == phase
  }

  predicate Enabled(s: State, l: Label) {
    match l
    case Add(p) => At(s, p, Ready) && s.producers[p].todo != [] && !s.lockKept
    case Raise(p) => At(s, p, Stored)
    case Signal(p, wake) => At(s, p, Raised) && WakesWorker(s, wake)
    case Check(w) => w < |s.workers| && s.workers[w] == Checking
    case Dequeue(w, wake) =>
      w < |s.workers| && s.workers[w] == Holding && !s.lockKept &&
      (if !s.ring.Empty() && s.ring.fullFlag > 0 then WakesProducer(s, wake) else wake == None)
    case Finish(w) => w < |s.workers| && s.workers[w].Running?
    case SpuriousProducer(p) => At(s, p, Blocked)
    case SpuriousWorker(w) => w < |s.workers| && s.workers[w] == Asleep
  }

  function SetPhase(s: State, p: nat, phase: Phase): seq<Producer>
    requires p < |s.producers|
  {
    s.producers[p := s.producers[p].(phase := phase)]
  }

  function Wake(s: State, wake: Option<nat>): seq<Worker>
    requires WakesWorker(s, wake)
  {
    if wake.Some? then s.workers[wake.value := Checking] else s.workers
  }

  function Unblock(s: State, wake: Option<nat>): seq<Producer>
    requires wake.Some? ==> wake.value < |s.producers|
  {
    if wake.Some? then SetPhase(s, wake.value, Ready) else s.producers
  }

  function Apply(s: State, l: Label): State
    requires s.ring.Valid() && Enabled(s, l)
  {
    match l
    case Add(p) =>
      if s.ring.fullFlag > 0 then
        s.(producers := SetPhase(s, p, Blocked))
      else
        var todo := s.producers[p].todo;
        s.(ring := s.ring.Store(todo[0]),
           producers := s.producers[p := Producer(Stored, todo[1..])],
           stored := s.stored + [todo[0]])
    case Raise(p) => s.(ready := s.ready + 1, producers := SetPhase(s, p, Raised))
    case Signal(p, wake) => s.(producers := SetPhase(s, p, Ready), workers := Wake(s, wake))
    case Check(w) =>
      if s.ready <= 0 then
        s.(workers := s.workers[w := Asleep])
      else
        s.(ready := s.ready - 1, workers := s.workers[w := Holding])
    case Dequeue(w, wake) =>
      if s.ring.Empty() then
        s.(lockKept := true, workers := s.workers[w := Checking])
      else
        var task := s.ring.slots[s.ring.front];
        s.(ring := s.ring.Drop(),
           producers := Unblock(s, wake),
           workers := s.workers[w := if task != 0 then Running(task) else Checking],
           taken := s.taken + [task])
    case Finish(w) =>
      s.(workers := s.workers[w := Checking], done := s.done + [s.workers[w].task])
    case SpuriousProducer(p) => s.(producers := SetPhase(s, p, Ready))
    case SpuriousWorker(w) => s.(workers := s.workers[w := Checking])
  }

  // ----- runs -----

  ghost predicate Init(s: State) {
    && s.ring.Valid() && s.ring.front == s.ring.back == 0 && s.ring.fullFlag == 0
    && s.ready == 0 && !s.lockKept
    && (forall p | 0 <= p < |s.producers| :: s.producers[p].phase == Ready)
    && |s.workers| >= 1
    && (forall w | 0 <= w < |s.workers| :: s.workers[w] == Checking)
    && s.stored == s.taken == s.done == []
  }

  ghost predicate CanRun(s: State, ls: seq<Label>)
    decreases |ls|
  {
    s.ring.Valid() && (ls != [] ==> Enabled(s, ls[0]) && CanRun(Apply(s, ls[0]), ls[1..]))
  }

  ghost function Exec(s: State, ls: seq<Label>): State
    requires CanRun(s, ls)
    decreases |ls|
  {
    if ls == [] then s else Exec(Apply(s, ls[0]), ls[1..])
  }

  lemma {:induction false} RunConcat(s: State, a: seq<Label>, b: seq<Label>)
    requires CanRun(s, a) && CanRun(Exec(s, a), b)
    ensures CanRun(s, a + b) && Exec(s, a + b) == Exec(Exec(s, a), b)
    decreases |a|
  {
    if a == [] {
      assert a + b == b;
    } else {
      RunConcat(Apply(s, a[0]), a[1..], b);
      assert (a + b)[1..] == a[1..] + b;
    }
  }

  lemma RunStep(s: State, l: Label, rest: seq<Label>)
    requires s.ring.Valid() && Enabled(s, l) && CanRun(Apply(s, l), rest)
    ensures CanRun(s, [l] + rest) && Exec(s, [l] + rest) == Exec(Apply(s, l), rest)
  {
    assert ([l] + rest)[1..] == rest;
  }

  ghost predicate NoSpurious(ls: seq<Label>) {
    forall i | 0 <= i < |ls| :: !ls[i].Spurious()
  }

  // ----- the counting invariants -----

  function StoredWeight(p: Producer): int { if p.phase == Stored then 1 else 0 }

  function HoldingWeight(w: Worker): int { if w == Holding then 1 else 0 }

  function Runs(task: int): Worker -> int {
    w => if w == Running(task) then 1 else 0
  }

  /** Everything dequeued so far, then the ring from front to back, is everything stored. */
  ghost predicate Linearised(s: State)
    requires s.ring.Valid()
  {
    s.taken + s.ring.Contents() == s.stored
  }

  /** Each queued task is a ready token, a store not yet counted, or a token in a worker's hand. */
  ghost predicate TokensConserved(s: State)
    requires s.ring.Valid()
  {
    |s.ring.Contents()| == s.ready + Sum(s.producers, StoredWeight) + Sum(s.workers, HoldingWeight)
  }

  /** Task t's job ran, or is running, once for each time t was taken; the sentinel 0 never runs. */
  ghost predicate JobCounted(s: State, t: int) {
    multiset(s.done)[t] + Sum(s.workers, Runs(t)) == if t == 0 then 0 else multiset(s.taken)[t]
  }

  ghost predicate Inv(s: State) {
    && s.ring.Valid() && s.ring.FlagExact()
    && s.ready >= 0 && !s.lockKept
    && Linearised(s) && TokensConserved(s)
    && (forall t :: JobCounted(s, t))
  }

  lemma InitInv(s: State)
    requires Init(s)
    ensures Inv(s)
  {
    SumUniform(s.producers, StoredWeight, 0);
    SumUniform(s.workers, HoldingWeight, 0);
    forall t ensures JobCounted(s, t) {
      SumUniform(s.workers, Runs(t), 0);
    }
  }

  lemma ProducerWeights(s: State)
    ensures Sum(s.producers, StoredWeight) >= 0
    ensures forall p | 0 <= p < |s.producers| :: Sum(s.producers, StoredWeight) >= StoredWeight(s.producers[p])
  {
    SumNonNegative(s.producers, StoredWeight);
    forall p | 0 <= p < |s.producers| ensures Sum(s.producers, StoredWeight) >= StoredWeight(s.producers[p]) {
      SumAtLeast(s.producers, p, StoredWeight);
    }
  }

  lemma WorkerWeights(s: State)
    ensures Sum(s.workers, HoldingWeight) >= 0
    ensures forall w | 0 <= w < |s.workers| :: Sum(s.workers, HoldingWeight) >= HoldingWeight(s.workers[w])
  {
    SumNonNegative(s.workers, HoldingWeight);
    forall w | 0 <= w < |s.workers| ensures Sum(s.workers, HoldingWeight) >= HoldingWeight(s.workers[w]) {
      SumAtLeast(s.workers, w, HoldingWeight);
    }
  }

  /** A worker that holds a token finds the ring non-empty, so the exit that keeps the lock is dead. */
  lemma HolderFindsTask(s: State, w: nat)
    requires Inv(s) && w < |s.workers| && s.workers[w] == Holding
    ensures !s.ring.Empty()
  {
    ProducerWeights(s);
    WorkerWeights(s);
    OccupancyBounds(s.ring);
  }

  lemma ProducerUpdate(s: State, p: nat, v: Producer)
    requires p < |s.producers|
    ensures Sum(s.producers[p := v], StoredWeight)
         == Sum(s.producers, StoredWeight) - StoredWeight(s.producers[p]) + StoredWeight(v)
  {
    SumUpdate(s.producers, p, v, StoredWeight);
  }

  lemma WorkerUpdate(s: State, w: nat, v: Worker)
    requires w < |s.workers|
    ensures Sum(s.workers[w := v], HoldingWeight)
         == Sum(s.workers, HoldingWeight) - HoldingWeight(s.workers[w]) + HoldingWeight(v)
  {
    SumUpdate(s.workers, w, v, HoldingWeight);
  }

  lemma AddInv(s: State, p: nat)
    requires Inv(s) && Enabled(s, Add(p))
    ensures var s' := Apply(s, Add(p)); s'.ring.Valid() && s'.ring.FlagExact() && Linearised(s') && TokensConserved(s')
  {
    var s' := Apply(s, Add(p));
    ProducerUpdate(s, p, s'.producers[p]);
    if s.ring.fullFlag <= 0 {
      var t := s.producers[p].todo[0];
      StoreAppends(s.ring, t);
      assert s.taken + (s.ring.Contents() + [t]) == (s.taken + s.ring.Contents()) + [t];
    }
  }

  lemma DequeueOrder(s: State, w: nat, wake: Option<nat>)
    requires Inv(s) && Enabled(s, Dequeue(w, wake)) && !s.ring.Empty()
    ensures var s' := Apply(s, Dequeue(w, wake));
      s'.ring.Valid() && s'.ring.FlagExact() && Linearised(s') && |s'.ring.Contents()| == |s.ring.Contents()| - 1
  {
    DropTakesHead(s.ring);
    var task := s.ring.slots[s.ring.front];
    var rest := s.ring.Drop().Contents();
    assert s.taken + ([task] + rest) == (s.taken + [task]) + rest;
  }

  lemma DequeueTokens(s: State, w: nat, wake: Option<nat>)
    requires s.ring.Valid() && Enabled(s, Dequeue(w, wake)) && !s.ring.Empty()
    ensures var s' := Apply(s, Dequeue(w, wake));
      && s'.ready == s.ready && s'.lockKept == s.lockKept
      && Sum(s'.producers, StoredWeight) == Sum(s.producers, StoredWeight)
      && Sum(s'.workers, HoldingWeight) == Sum(s.workers, HoldingWeight) - 1
  {
    var task := s.ring.slots[s.ring.front];
    WorkerUpdate(s, w, if task != 0 then Running(task) else Checking);
    if wake.Some? {
      ProducerUpdate(s, wake.value, s.producers[wake.value].(phase := Ready));
    }
  }

  lemma DequeueInv(s: State, w: nat, wake: Option<nat>)
    requires Inv(s) && Enabled(s, Dequeue(w, wake))
    ensures !s.ring.Empty()
    ensures var s' := Apply(s, Dequeue(w, wake));
      && s'.ring.Valid() && s'.ring.FlagExact() && Linearised(s') && TokensConserved(s')
      && s'.ready >= 0 && !s'.lockKept
  {
    HolderFindsTask(s, w);
    DequeueOrder(s, w, wake);
    DequeueTokens(s, w, wake);
  }

  /** The remaining steps leave the ring and its histories alone and move one token at most. */
  lemma OtherInv(s: State, l: Label)
    requires Inv(s) && Enabled(s, l) && !l.Add? && !l.Dequeue?
    ensures var s' := Apply(s, l); s'.ring == s.ring && s'.stored == s.stored && s'.taken == s.taken
    ensures Apply(s, l).ready >= 0 && !Apply(s, l).lockKept && TokensConserved(Apply(s, l))
  {
    var s' := Apply(s, l);
    match l
    case Raise(p) => ProducerUpdate(s, p, s'.producers[p]);
    case Signal(p, wake) =>
      ProducerUpdate(s, p, s'.producers[p]);
      if wake.Some? {
        WorkerUpdate(s, wake.value, Checking);
      }
    case Check(w) => WorkerUpdate(s, w, s'.workers[w]);
    case Finish(w) => WorkerUpdate(s, w, Checking);
    case SpuriousProducer(p) => ProducerUpdate(s, p, s'.producers[p]);
    case SpuriousWorker(w) => WorkerUpdate(s, w, Checking);
  }

  lemma TakenJobs(s: State, w: nat, wake: Option<nat>, t: int)
    requires s.ring.Valid() && JobCounted(s, t) && Enabled(s, Dequeue(w, wake))
    ensures JobCounted(Apply(s, Dequeue(w, wake)), t)
  {
    if s.ring.Empty() {
      SumUpdate(s.workers, w, Checking, Runs(t));
    } else {
      var task := s.ring.slots[s.ring.front];
      SumUpdate(s.workers, w, if task != 0 then Running(task) else Checking, Runs(t));
      assert multiset(s.taken + [task])[t] == multiset(s.taken)[t] + if t == task then 1 else 0;
    }
  }

  lemma FinishedJobs(s: State, w: nat, t: int)
    requires s.ring.Valid() && JobCounted(s, t) && Enabled(s, Finish(w))
    ensures JobCounted(Apply(s, Finish(w)), t)
  {
    SumUpdate(s.workers, w, Checking, Runs(t));
    var task := s.workers[w].task;
    assert multiset(s.done + [task])[t] == multiset(s.done)[t] + if t == task then 1 else 0;
  }

  lemma StepJobs(s: State, l: Label, t: int)
    requires s.ring.Valid() && JobCounted(s, t) && Enabled(s, l)
    ensures JobCounted(Apply(s, l), t)
  {
    match l
    case Add(p) =>
    case Raise(p) =>
    case Signal(p, wake) =>
      if wake.Some? {
        SumUpdate(s.workers, wake.value, Checking, Runs(t));
      }
    case Check(w) => SumUpdate(s.workers, w, if s.ready <= 0 then Asleep else Holding, Runs(t));
    case Dequeue(w, wake) => TakenJobs(s, w, wake, t);
    case Finish(w) => FinishedJobs(s, w, t);
    case SpuriousProducer(p) =>
    case SpuriousWorker(w) => SumUpdate(s.workers, w, Checking, Runs(t));
  }

  /** Every step of any number of producers and workers, spurious wake-ups included, keeps the invariants. */
  lemma StepInv(s: State, l: Label)
    requires Inv(s) && Enabled(s, l)
    ensures Inv(Apply(s, l))
  {
    forall t ensures JobCounted(Apply(s, l), t) {
      assert JobCounted(s, t);
      StepJobs(s, l, t);
    }
    match l
    case Add(p) => AddInv(s, p);
    case Dequeue(w, wake) => DequeueInv(s, w, wake);
    case _ => OtherInv(s, l);
  }

  lemma {:induction false} RunInv(s: State, ls: seq<Label>)
    requires Inv(s) && CanRun(s, ls)
    ensures Inv(Exec(s, ls))
    decreases |ls|
  {
    if ls != [] {
      StepInv(s, ls[0]);
      RunInv(Apply(s, ls[0]), ls[1..]);
    }
  }
}
