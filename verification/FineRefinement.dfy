/** The code as written refines the monitor-level pool, for any number of producers, as long as the
    ring is never allowed to fill up, and either one worker runs or the ring never holds two tasks:
    the unlocked read of `front` and the late flag update are then invisible. */
module FineRefinement {
  import opened Wrappers
  import opened Tally
  import opened RingBuffer
  import opened Fine
  import M = Monitor

  // ----- the monitor state a fine state stands for -----

  function PhaseOf(at: PStep): M.Phase {
    match at
    case PTestFull | PLockFlagAgain | PRaiseFlag | PUnlockFlagAgain | PUnlockQueue | PLockReady | PCountTask => M.Stored
    case PUnlockReady | PSignalTask => M.Raised
    case _ => M.Ready
  }

  function ProducerOf(p: Producer): M.Producer { M.Producer(PhaseOf(p.at), p.todo) }

  function AfterDequeue(task: int): M.Worker { if task != 0 then M.Running(task) else M.Checking }

  function WorkerOf(at: WStep): M.Worker {
    match at
    case WLockReady | WTestReady | WAwaitTask | WRelockReady | WTakeToken => M.Checking
    case WTaskSleep => M.Asleep
    case WUnlockReady | WReadFront | WLockQueue(_) | WTestEmpty(_) | WReadSlot(_) | WMoveFront(_, _) => M.Holding
    case WUnlockQueue(t) => AfterDequeue(t)
    case WLockFlag(t) => AfterDequeue(t)
    case WTestFlag(t) => AfterDequeue(t)
    case WLowerFlag(t) => AfterDequeue(t)
    case WSignalSpace(t) => AfterDequeue(t)
    case WUnlockFlag(t) => AfterDequeue(t)
    case WRunJob(t) => M.Running(t)
  }

  function ProducersOf(ps: seq<Producer>): seq<M.Producer> {
    seq(|ps|, i requires 0 <= i < |ps| => ProducerOf(ps[i]))
  }

  function WorkersOf(ws: seq<WStep>): seq<M.Worker> {
    seq(|ws|, i requires 0 <= i < |ws| => WorkerOf(ws[i]))
  }

  function Abs(s: State): M.State {
    M.State(s.ring, s.ready, false, ProducersOf(s.producers), WorkersOf(s.workers), s.stored, s.taken, s.done)
  }

  /** The monitor step a fine step carries out, if any. */
  function LabelOf(s: State, l: Label): Option<M.Label> {
    match l
    case ProducerStep(p, wake) =>
      if p >= |s.producers| then None
      else if s.producers[p].at == PStoreTask then Some(M.Add(p))
      else if s.producers[p].at == PCountTask then Some(M.Raise(p))
      else if s.producers[p].at == PSignalTask then Some(M.Signal(p, wake))
      else None
    case WorkerStep(w, _) =>
      if w >= |s.workers| then None
      else if s.workers[w] == WAwaitTask || s.workers[w] == WTakeToken then Some(M.Check(w))
      else if s.workers[w].WMoveFront? then Some(M.Dequeue(w, None))
      else if s.workers[w].WRunJob? then Some(M.Finish(w))
      else None
    case SpuriousProducer(p) => None
    case SpuriousWorker(w) => Some(M.SpuriousWorker(w))
  }

  // ----- the regime and its invariant -----

  ghost predicate Holds(s: State, k: nat) {
    s.ring.Valid() && |s.ring.Contents()| <= k
  }

  /** A run in which the ring never holds more than k tasks. */
  ghost predicate BoundedRun(s: State, ls: seq<Label>, k: nat)
    requires CanRun(s, ls)
    decreases |ls|
  {
    Holds(s, k) && (ls != [] ==> BoundedRun(Apply(s, ls[0]), ls[1..], k))
  }

  /** The bounds on occupancy under which a ring of that size and that many workers are safe. */
  predicate Safe(size: nat, workers: nat, k: nat) {
    k <= 1 || (workers == 1 && k <= size - 2)
  }

  /** Positions a producer reaches when it never sees the flag up and never fills the ring. */
  predicate NeverFull(at: PStep) {
    at !in {PYieldQueue, PAwaitSpace, PSpaceSleep, PRelockFlag, PRelockQueue,
            PLockFlagAgain, PRaiseFlag, PUnlockFlagAgain}
  }

  ghost predicate NeverFullAt(s: State, p: nat) { p < |s.producers| && NeverFull(s.producers[p].at) }

  /** What a worker remembers of the ring is still true. */
  ghost predicate WorkerUpToDate(ring: Ring, at: WStep)
    requires ring.Valid()
  {
    match at
    case WLockQueue(front) => front == ring.front
    case WTestEmpty(front) => front == ring.front
    case WReadSlot(front) => front == ring.front && !ring.Empty()
    case WMoveFront(front, task) => front == ring.front && !ring.Empty() && task == ring.slots[front]
    case WLowerFlag(_) => false
    case WSignalSpace(_) => false
    case WRunJob(task) => task != 0
    case _ => true
  }

  ghost predicate Calm(s: State) {
    && Shape(s) && LocksHeld(s) && ReadyInv(s)
    && s.ring.fullFlag == 0
    && (forall p | 0 <= p < |s.producers| :: NeverFull(s.producers[p].at))
    && (forall w | 0 <= w < |s.workers| :: WorkerUpToDate(s.ring, s.workers[w]))
    && M.Inv(Abs(s))
  }

  lemma ProducersOfUpdate(ps: seq<Producer>, p: nat, v: Producer)
    requires p < |ps|
    ensures ProducersOf(ps[p := v]) == ProducersOf(ps)[p := ProducerOf(v)]
  {
  }

  lemma WorkersOfUpdate(ws: seq<WStep>, w: nat, v: WStep)
    requires w < |ws|
    ensures WorkersOf(ws[w := v]) == WorkersOf(ws)[w := WorkerOf(v)]
  {
  }

  // ----- one step -----

  ghost predicate Simulated(s: State, l: Label)
    requires Calm(s) && Enabled(s, l)
  {
    match LabelOf(s, l)
    case None => Abs(Apply(s, l)) == Abs(s)
    case Some(ml) => M.Enabled(Abs(s), ml) && Abs(Apply(s, l)) == M.Apply(Abs(s), ml)
  }

  /** With the queue lock held by a storing producer, no worker holds a slot it has read. */
  lemma StoreExcludesWorker(s: State, p: nat, w: nat)
    requires Calm(s) && p < |s.producers| && s.producers[p].at == PStoreTask && w < |s.workers|
    ensures !s.workers[w].WReadSlot? && !s.workers[w].WMoveFront?
  {
    assert Inside(s, Prod(p), QueueM);
    assert !Inside(s, Work(w), QueueM);
  }

  lemma StoreSimulated(s: State, p: nat)
    requires Calm(s) && Enabled(s, ProducerStep(p, None)) && s.producers[p].at == PStoreTask
    requires Holds(Apply(s, ProducerStep(p, None)), s.ring.Size() - 2)
    ensures Simulated(s, ProducerStep(p, None))
    ensures forall w | 0 <= w < |s.workers| :: WorkerUpToDate(Apply(s, ProducerStep(p, None)).ring, s.workers[w])
  {
    var s' := Apply(s, ProducerStep(p, None));
    ProducersOfUpdate(s.producers, p, s'.producers[p]);
    OccupancyBounds(s'.ring);
    forall w | 0 <= w < |s.workers| ensures WorkerUpToDate(s'.ring, s.workers[w]) {
      StoreExcludesWorker(s, p, w);
    }
  }

  /** Away from its store, count and signal a producer moves without showing. */
  lemma ProducerHides(s: State, p: nat, wake: Option<nat>)
    requires Shape(s) && s.ring.fullFlag == 0 && Enabled(s, ProducerStep(p, wake)) && NeverFull(s.producers[p].at)
    requires !s.ring.Full() && LabelOf(s, ProducerStep(p, wake)) == None
    ensures var s' := ProducerApply(s, p, wake);
      && s'.ring == s.ring && s'.ready == s.ready && s'.workers == s.workers
      && s'.stored == s.stored && s'.taken == s.taken && s'.done == s.done
      && s'.producers == s.producers[p := s'.producers[p]]
      && NeverFull(s'.producers[p].at) && ProducerOf(s'.producers[p]) == ProducerOf(s.producers[p])
  {
  }

  lemma SignalSimulated(s: State, p: nat, wake: Option<nat>)
    requires Calm(s) && Enabled(s, ProducerStep(p, wake)) && s.producers[p].at == PSignalTask
    ensures Simulated(s, ProducerStep(p, wake))
  {
    ProducersOfUpdate(s.producers, p, s.producers[p].(at := PLockQueue));
    assert forall w: nat | w < |s.workers| :: WorkersOf(s.workers)[w] == M.Asleep <==> s.workers[w] == WTaskSleep;
    if wake.Some? {
      WorkersOfUpdate(s.workers, wake.value, WRelockReady);
    }
  }

  lemma ProducerSimulated(s: State, p: nat, wake: Option<nat>)
    requires Calm(s) && Holds(s, s.ring.Size() - 2)
    requires Enabled(s, ProducerStep(p, wake)) && s.producers[p].at != PStoreTask
    ensures Simulated(s, ProducerStep(p, wake))
    ensures var s' := Apply(s, ProducerStep(p, wake)); NeverFullAt(s', p) && s'.ring == s.ring
  {
    OccupancyBounds(s.ring);
    if s.producers[p].at == PSignalTask {
      SignalSimulated(s, p, wake);
    } else if s.producers[p].at == PCountTask {
      ProducersOfUpdate(s.producers, p, s.producers[p].(at := PUnlockReady));
    } else {
      ProducerHides(s, p, wake);
      ProducersOfUpdate(s.producers, p, ProducerApply(s, p, wake).producers[p]);
    }
  }

  lemma ProducerStaysCalm(s: State, p: nat, wake: Option<nat>)
    requires Calm(s) && Holds(s, s.ring.Size() - 2) && Enabled(s, ProducerStep(p, wake))
    requires Holds(Apply(s, ProducerStep(p, wake)), s.ring.Size() - 2)
    ensures Simulated(s, ProducerStep(p, wake))
    ensures var s' := Apply(s, ProducerStep(p, wake));
      && OnlyProducer(s, s', p) && NeverFullAt(s', p) && s'.ring.fullFlag == 0
      && forall w | 0 <= w < |s'.workers| :: WorkerUpToDate(s'.ring, s'.workers[w])
  {
    ProducerStepOthers(s, p, wake);
    if s.producers[p].at == PStoreTask {
      StoreSimulated(s, p);
    } else {
      ProducerSimulated(s, p, wake);
    }
  }

  /** A worker that read `front` and still has it right carries out the atomic dequeue. */
  lemma DequeueSimulated(s: State, w: nat)
    requires Calm(s) && Enabled(s, WorkerStep(w, None)) && s.workers[w].WMoveFront?
    ensures Simulated(s, WorkerStep(w, None))
  {
    var s' := Apply(s, WorkerStep(w, None));
    WorkersOfUpdate(s.workers, w, s'.workers[w]);
    assert Abs(s).workers[w] == M.Holding;
  }

  /** In a safe regime two workers never hold tokens at once. */
  lemma LoneHolder(s: State, k: nat, w: nat, v: nat)
    requires Calm(s) && Holds(s, k) && Safe(s.ring.Size(), |s.workers|, k)
    requires w < |s.workers| && v < |s.workers|
    requires WorkerOf(s.workers[w]) == M.Holding && WorkerOf(s.workers[v]) == M.Holding
    ensures v == w
  {
    if v != w {
      var ws := Abs(s).workers;
      SumAtLeastTwo(ws, w, v, M.Checking, M.HoldingWeight);
      M.ProducerWeights(Abs(s));
    }
  }

  /** A worker holding a token never finds the ring empty. */
  lemma NeverEmpty(s: State, w: nat)
    requires Calm(s) && w < |s.workers| && s.workers[w].WTestEmpty?
    ensures !s.ring.Empty()
  {
    assert Abs(s).workers[w] == M.Holding;
    M.HolderFindsTask(Abs(s), w);
  }

  /** Away from its check, dequeue and job end a worker moves without showing. */
  lemma WorkerHides(s: State, w: nat, wake: Option<nat>)
    requires Shape(s) && s.ring.fullFlag == 0 && Enabled(s, WorkerStep(w, wake))
    requires WorkerUpToDate(s.ring, s.workers[w]) && LabelOf(s, WorkerStep(w, wake)) == None
    requires s.workers[w].WTestEmpty? ==> !s.ring.Empty()
    ensures var s' := WorkerApply(s, w, wake);
      && s'.ring == s.ring && s'.ready == s.ready && s'.producers == s.producers
      && s'.stored == s.stored && s'.taken == s.taken && s'.done == s.done
      && s'.workers == s.workers[w := s'.workers[w]]
      && WorkerUpToDate(s.ring, s'.workers[w]) && WorkerOf(s'.workers[w]) == WorkerOf(s.workers[w])
  {
  }

  /** Going to sleep, taking a token and ending a job are the monitor's own steps. */
  lemma WorkerShows(s: State, w: nat)
    requires Calm(s) && Enabled(s, WorkerStep(w, None))
    requires s.workers[w] == WAwaitTask || s.workers[w] == WTakeToken || s.workers[w].WRunJob?
    ensures Simulated(s, WorkerStep(w, None))
  {
    assert Abs(s).workers[w] == WorkerOf(s.workers[w]);
    WorkersOfUpdate(s.workers, w, WorkerApply(s, w, None).workers[w]);
  }

  lemma WorkerSimulated(s: State, w: nat, wake: Option<nat>)
    requires Calm(s) && Enabled(s, WorkerStep(w, wake))
    ensures Simulated(s, WorkerStep(w, wake))
    ensures var s' := Apply(s, WorkerStep(w, wake));
      && s'.producers == s.producers && s'.ring.fullFlag == 0 && s'.ring.Valid()
      && WorkerUpToDate(s'.ring, s'.workers[w]) && (s.workers[w].WMoveFront? || s'.ring == s.ring)
  {
    var at := s.workers[w];
    if LabelOf(s, WorkerStep(w, wake)) == None {
      if at.WTestEmpty? {
        NeverEmpty(s, w);
      }
      WorkerHides(s, w, wake);
      WorkersOfUpdate(s.workers, w, WorkerApply(s, w, wake).workers[w]);
    } else if at.WMoveFront? {
      DequeueSimulated(s, w);
    } else {
      WorkerShows(s, w);
    }
  }

  lemma WorkerStaysCalm(s: State, k: nat, w: nat, wake: Option<nat>)
    requires Calm(s) && Holds(s, k) && Safe(s.ring.Size(), |s.workers|, k) && Enabled(s, WorkerStep(w, wake))
    ensures Simulated(s, WorkerStep(w, wake))
    ensures var s' := Apply(s, WorkerStep(w, wake));
      && s'.producers == s.producers && s'.ring.fullFlag == 0 && s'.ring.Valid()
      && forall v | 0 <= v < |s'.workers| :: WorkerUpToDate(s'.ring, s'.workers[v])
  {
    var s' := Apply(s, WorkerStep(w, wake));
    WorkerSimulated(s, w, wake);
    WorkerStepOthers(s, w, wake);
    forall v | 0 <= v < |s'.workers| ensures WorkerUpToDate(s'.ring, s'.workers[v]) {
      if v != w && s.workers[w].WMoveFront? && WorkerOf(s.workers[v]) == M.Holding {
        LoneHolder(s, k, w, v);
      }
    }
  }

  /** In a safe regime every fine step is a monitor step or changes nothing a monitor sees. */
  lemma StepSimulated(s: State, k: nat, l: Label)
    requires Calm(s) && Holds(s, k) && Safe(s.ring.Size(), |s.workers|, k)
    requires Enabled(s, l) && Holds(Apply(s, l), k)
    ensures Simulated(s, l) && Calm(Apply(s, l))
  {
    hide ProducerApply, WorkerApply, LocksHeld, ReadyInv, M.Inv;
    StepShape(s, l);
    StepLocks(s, l);
    StepReady(s, l);
    match l {
      case ProducerStep(p, wake) => ProducerStaysCalm(s, p, wake);
      case WorkerStep(w, wake) => WorkerStaysCalm(s, k, w, wake);
      case SpuriousProducer(p) =>
      case SpuriousWorker(w) => WorkersOfUpdate(s.workers, w, WRelockReady);
    }
    if LabelOf(s, l).Some? {
      M.StepInv(Abs(s), LabelOf(s, l).value);
    }
  }

  // ----- whole runs -----

  lemma {:induction false} RunSimulated(s: State, k: nat, ls: seq<Label>) returns (ms: seq<M.Label>)
    requires Calm(s) && CanRun(s, ls) && BoundedRun(s, ls, k) && Safe(s.ring.Size(), |s.workers|, k)
    ensures Calm(Exec(s, ls))
    ensures M.CanRun(Abs(s), ms) && M.Exec(Abs(s), ms) == Abs(Exec(s, ls))
    decreases |ls|
  {
    if ls == [] {
      ms := [];
    } else {
      StepSimulated(s, k, ls[0]);
      StepShape(s, ls[0]);
      var rest := RunSimulated(Apply(s, ls[0]), k, ls[1..]);
      match LabelOf(s, ls[0]) {
        case None => ms := rest;
        case Some(ml) =>
          M.RunStep(Abs(s), ml, rest);
          ms := [ml] + rest;
      }
    }
  }

  lemma InitCalm(s0: State)
    requires Init(s0)
    ensures M.Init(Abs(s0)) && Calm(s0)
  {
    M.InitInv(Abs(s0));
  }

  /** Nothing lost, repeated or reordered. */
  ghost predicate Fifo(s: State) {
    s.ring.Valid() && s.taken + s.ring.Contents() == s.stored
  }

  /** In a safe regime every run of the code as written is a run of the monitor pool. Hence no task
      is lost, repeated or reordered, and no worker takes the empty exit. */
  lemma {:induction false} FineRefinesMonitor(s0: State, k: nat, ls: seq<Label>) returns (ms: seq<M.Label>)
    requires Init(s0) && CanRun(s0, ls) && BoundedRun(s0, ls, k) && Safe(s0.ring.Size(), |s0.workers|, k)
    ensures M.Init(Abs(s0)) && M.CanRun(Abs(s0), ms) && M.Exec(Abs(s0), ms) == Abs(Exec(s0, ls))
    ensures var s := Exec(s0, ls);
      && Fifo(s)
      && forall w | 0 <= w < |s.workers| && s.workers[w].WTestEmpty? :: !s.ring.Empty()
  {
    InitCalm(s0);
    ms := RunSimulated(s0, k, ls);
    var s := Exec(s0, ls);
    forall w | 0 <= w < |s.workers| && s.workers[w].WTestEmpty? ensures !s.ring.Empty() {
      NeverEmpty(s, w);
    }
  }
}
