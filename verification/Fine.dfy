/** The thread pool at the granularity of the code: every lock, unlock, wait, signal and unprotected
    read is a step of its own, and waits may wake spuriously. Any number of producers and workers. */
module Fine {
  import opened Wrappers
  import opened Tally
  import opened RingBuffer

  datatype Mutex = QueueM | FlagM | ReadyM

  datatype Thread = Prod(p: nat) | Work(w: nat)

  /** What a producer does next in adding a task; the numbers are lines of src/lib/tpool.c. */
  datatype PStep =
    | PLockQueue | PLockFlag | PTestFlag                                     // 93, 152, 155
    | PYieldQueue | PAwaitSpace | PSpaceSleep | PRelockFlag | PRelockQueue   // 157, 158 (wait, sleep, relock), 161
    | PUnlockFlag | PStoreTask | PTestFull                                   // 164, 129-134, 136
    | PLockFlagAgain | PRaiseFlag | PUnlockFlagAgain                         // 140, 141, 142
    | PUnlockQueue | PLockReady | PCountTask | PUnlockReady | PSignalTask    // 103, 114, 115, 116, 119

  /** What a worker does next in its loop; `front` and `task` are its local variables. */
  datatype WStep =
    | WLockReady | WTestReady | WAwaitTask | WTaskSleep | WRelockReady       // 241, 243, 245 (wait, sleep, relock)
    | WTakeToken | WUnlockReady                                              // 248, 249
    | WReadFront | WLockQueue(front: int) | WTestEmpty(front: int)           // 262, 266, 269
    | WReadSlot(front: int) | WMoveFront(front: int, task: int)              // 277, 279
    | WUnlockQueue(task: int) | WLockFlag(task: int) | WTestFlag(task: int)  // 280, 282, 283
    | WLowerFlag(task: int) | WSignalSpace(task: int)                        // 287, 288
    | WUnlockFlag(task: int) | WRunJob(task: int)                            // 290, 252-253

  datatype Producer = Producer(at: PStep, todo: seq<int>)

  /** `exitReleases` reads the empty exit of a dequeue as releasing the queue lock; the code as
      written keeps it. */
  datatype State = State(
    ring: Ring, ready: int,
    queueLock: Option<Thread>, flagLock: Option<Thread>, readyLock: Option<Thread>,
    exitReleases: bool, producers: seq<Producer>, workers: seq<WStep>,
    stored: seq<int>, taken: seq<int>, done: seq<int>)

  datatype Label =
    | ProducerStep(p: nat, wakeWorker: Option<nat>)
    | WorkerStep(w: nat, wakeProducer: Option<nat>)
    | SpuriousProducer(p: nat)
    | SpuriousWorker(w: nat)

  // ----- locks -----

  function Owner(s: State, m: Mutex): Option<Thread> {
    match m case QueueM => s.queueLock case FlagM => s.flagLock case ReadyM => s.readyLock
  }

  function PWants(at: PStep): Option<Mutex> {
    match at
    case PLockQueue | PRelockQueue => Some(QueueM)
    case PLockFlag | PRelockFlag | PLockFlagAgain => Some(FlagM)
    case PLockReady => Some(ReadyM)
    case _ => None
  }

  function WWants(at: WStep): Option<Mutex> {
    match at
    case WLockReady | WRelockReady => Some(ReadyM)
    case WLockQueue(_) => Some(QueueM)
    case WLockFlag(_) => Some(FlagM)
    case _ => None
  }

  predicate PHolds(at: PStep, m: Mutex) {
    match m
    case QueueM =>
      at in {PLockFlag, PTestFlag, PYieldQueue, PUnlockFlag, PStoreTask, PTestFull, PLockFlagAgain,
             PRaiseFlag, PUnlockFlagAgain, PUnlockQueue}
    case FlagM =>
      at in {PTestFlag, PYieldQueue, PAwaitSpace, PRelockQueue, PUnlockFlag, PRaiseFlag, PUnlockFlagAgain}
    case ReadyM =>
      at in {PCountTask, PUnlockReady}
  }

  predicate WHolds(at: WStep, m: Mutex) {
    match m
    case QueueM => at.WTestEmpty? || at.WReadSlot? || at.WMoveFront? || at.WUnlockQueue?
    case FlagM => at.WTestFlag? || at.WLowerFlag? || at.WSignalSpace? || at.WUnlockFlag?
    case ReadyM => at.WTestReady? || at.WAwaitTask? || at.WTakeToken? || at.WUnlockReady?
  }

  // ----- steps -----

  predicate WakesWorker(s: State, wake: Option<nat>) {
    match wake
    case Some(w) => w < |s.workers| && s.workers[w] == WTaskSleep
    case None => forall w: nat | w < |s.workers| :: s.workers[w] != WTaskSleep
  }

  predicate WakesProducer(s: State, wake: Option<nat>) {
    match wake
    case Some(p) => p < |s.producers| && s.producers[p].at == PSpaceSleep
    case None => forall p: nat | p < |s.producers| :: s.producers[p].at != PSpaceSleep
  }

  predicate Enabled(s: State, l: Label) {
    match l
    case ProducerStep(p, wake) =>
      && p < |s.producers|
      && var at := s.producers[p].at;
      && (PWants(at).Some? ==> Owner(s, PWants(at).value) == None)
      && at != PSpaceSleep
      && (at == PLockQueue ==> s.producers[p].todo != [])
      && (if at == PSignalTask then WakesWorker(s, wake) else wake == None)
    case WorkerStep(w, wake) =>
      && w < |s.workers|
      && var at := s.workers[w];
      && (WWants(at).Some? ==> Owner(s, WWants(at).value) == None)
      && at != WTaskSleep
      && (if at.WSignalSpace? then WakesProducer(s, wake) else wake == None)
    case SpuriousProducer(p) => p < |s.producers| && s.producers[p].at == PSpaceSleep
    case SpuriousWorker(w) => w < |s.workers| && s.workers[w] == WTaskSleep
  }

  /** Between taking the queue lock and storing, a producer has a task in hand. */
  predicate HasTaskInHand(at: PStep) {
    at in {PLockFlag, PTestFlag, PYieldQueue, PAwaitSpace, PSpaceSleep, PRelockFlag, PRelockQueue,
           PUnlockFlag, PStoreTask}
  }

  predicate FrontInRange(at: WStep, size: int) {
    (at.WLockQueue? || at.WTestEmpty? || at.WReadSlot? || at.WMoveFront?) ==> 0 <= at.front < size
  }

  ghost predicate Shape(s: State) {
    && s.ring.Valid()
    && (forall p | 0 <= p < |s.producers| :: HasTaskInHand(s.producers[p].at) ==> s.producers[p].todo != [])
    && (forall w | 0 <= w < |s.workers| :: FrontInRange(s.workers[w], s.ring.Size()))
  }

  function PMove(s: State, p: nat, at: PStep): State
    requires p < |s.producers|
  {
    s.(producers := s.producers[p := s.producers[p].(at := at)])
  }

  function WMove(s: State, w: nat, at: WStep): State
    requires w < |s.workers|
  {
    s.(workers := s.workers[w := at])
  }

  function ProducerApply(s: State, p: nat, wake: Option<nat>): State
    requires Shape(s) && Enabled(s, ProducerStep(p, wake))
  {
    match s.producers[p].at
    case PLockQueue => PMove(s, p, PLockFlag).(queueLock := Some(Prod(p)))
    case PLockFlag => PMove(s, p, PTestFlag).(flagLock := Some(Prod(p)))
    case PTestFlag => PMove(s, p, if s.ring.fullFlag > 0 then PYieldQueue else PUnlockFlag)
    case PYieldQueue => PMove(s, p, PAwaitSpace).(queueLock := None)
    case PAwaitSpace => PMove(s, p, PSpaceSleep).(flagLock := None)
    case PRelockFlag => PMove(s, p, PRelockQueue).(flagLock := Some(Prod(p)))
    case PRelockQueue => PMove(s, p, PTestFlag).(queueLock := Some(Prod(p)))
    case PUnlockFlag => PMove(s, p, PStoreTask).(flagLock := None)
    case PStoreTask =>
      var todo := s.producers[p].todo;
      s.(ring := s.ring.(slots := s.ring.slots[s.ring.back := todo[0]], back := Next(s.ring.back, s.ring.Size())),
         producers := s.producers[p := Producer(PTestFull, todo[1..])],
         stored := s.stored + [todo[0]])
    case PTestFull =>
      PMove(s, p, if Next(s.ring.back, s.ring.Size()) == s.ring.front then PLockFlagAgain else PUnlockQueue)
    case PLockFlagAgain => PMove(s, p, PRaiseFlag).(flagLock := Some(Prod(p)))
    case PRaiseFlag => PMove(s, p, PUnlockFlagAgain).(ring := s.ring.(fullFlag := s.ring.fullFlag + 1))
    case PUnlockFlagAgain => PMove(s, p, PUnlockQueue).(flagLock := None)
    case PUnlockQueue => PMove(s, p, PLockReady).(queueLock := None)
    case PLockReady => PMove(s, p, PCountTask).(readyLock := Some(Prod(p)))
    case PCountTask => PMove(s, p, PUnlockReady).(ready := s.ready + 1)
    case PUnlockReady => PMove(s, p, PSignalTask).(readyLock := None)
    case PSignalTask =>
      var s' := PMove(s, p, PLockQueue);
      if wake.Some? then WMove(s', wake.value, WRelockReady) else s'
  }

  function WorkerApply(s: State, w: nat, wake: Option<nat>): State
    requires Shape(s) && Enabled(s, WorkerStep(w, wake))
  {
    match s.workers[w]
    case WLockReady => WMove(s, w, WTestReady).(readyLock := Some(Work(w)))
    case WTestReady => WMove(s, w, if s.ready <= 0 then WAwaitTask else WTakeToken)
    case WAwaitTask => WMove(s, w, WTaskSleep).(readyLock := None)
    case WRelockReady => WMove(s, w, WTestReady).(readyLock := Some(Work(w)))
    case WTakeToken => WMove(s, w, WUnlockReady).(ready := s.ready - 1)
    case WUnlockReady => WMove(s, w, WReadFront).(readyLock := None)
    case WReadFront => WMove(s, w, WLockQueue(s.ring.front))
    case WLockQueue(front) => WMove(s, w, WTestEmpty(front)).(queueLock := Some(Work(w)))
    case WTestEmpty(front) =>
      if s.ring.Empty() then
        WMove(s, w, WLockReady).(queueLock := if s.exitReleases then None else s.queueLock)
      else
        WMove(s, w, WReadSlot(front))
    case WReadSlot(front) => WMove(s, w, WMoveFront(front, s.ring.slots[front]))
    case WMoveFront(front, task) =>
      WMove(s, w, WUnlockQueue(task)).(
        ring := s.ring.(front := Next(front, s.ring.Size())), taken := s.taken + [task])
    case WUnlockQueue(task) => WMove(s, w, WLockFlag(task)).(queueLock := None)
    case WLockFlag(task) => WMove(s, w, WTestFlag(task)).(flagLock := Some(Work(w)))
    case WTestFlag(task) => WMove(s, w, if s.ring.fullFlag > 0 then WLowerFlag(task) else WUnlockFlag(task))
    case WLowerFlag(task) => WMove(s, w, WSignalSpace(task)).(ring := s.ring.(fullFlag := s.ring.fullFlag - 1))
    case WSignalSpace(task) =>
      var s' := WMove(s, w, WUnlockFlag(task));
      if wake.Some? then PMove(s', wake.value, PRelockFlag) else s'
    case WUnlockFlag(task) =>
      WMove(s, w, if task != 0 then WRunJob(task) else WLockReady).(flagLock := None)
    case WRunJob(task) => WMove(s, w, WLockReady).(done := s.done + [task])
  }

  function Apply(s: State, l: Label): State
    requires Shape(s) && Enabled(s, l)
  {
    match l
    case ProducerStep(p, wake) => ProducerApply(s, p, wake)
    case WorkerStep(w, wake) => WorkerApply(s, w, wake)
    case SpuriousProducer(p) => PMove(s, p, PRelockFlag)
    case SpuriousWorker(w) => WMove(s, w, WRelockReady)
  }

  lemma ProducerKeepsTask(s: State, p: nat, wake: Option<nat>)
    requires Shape(s) && Enabled(s, ProducerStep(p, wake))
    ensures var s' := ProducerApply(s, p, wake);
      && s'.producers == s.producers[p := s'.producers[p]]
      && (HasTaskInHand(s'.producers[p].at) ==> s'.producers[p].todo != [])
  {
  }

  lemma ProducerKeepsSizes(s: State, p: nat, wake: Option<nat>)
    requires Shape(s) && Enabled(s, ProducerStep(p, wake))
    ensures var s' := ProducerApply(s, p, wake);
      && s'.ring.Valid() && s'.ring.Size() == s.ring.Size() && s'.exitReleases == s.exitReleases
      && (s'.workers == s.workers
          || (wake.Some? && wake.value < |s.workers| && s'.workers == s.workers[wake.value := WRelockReady]))
  {
  }

  lemma WorkerMovesItself(s: State, w: nat, wake: Option<nat>)
    requires Shape(s) && Enabled(s, WorkerStep(w, wake))
    ensures var s' := WorkerApply(s, w, wake);
      |s'.workers| == |s.workers| && s'.workers == s.workers[w := s'.workers[w]]
  {
  }

  /** A worker remembers only the front it has read. */
  lemma WorkerKeepsFront(s: State, w: nat, wake: Option<nat>)
    requires Shape(s) && Enabled(s, WorkerStep(w, wake))
    ensures w < |WorkerApply(s, w, wake).workers|
    ensures FrontInRange(WorkerApply(s, w, wake).workers[w], s.ring.Size())
  {
    assert FrontInRange(s.workers[w], s.ring.Size());
    match s.workers[w]
    case WReadFront =>
    case WLockQueue(front) =>
    case WTestEmpty(front) =>
    case WReadSlot(front) =>
    case WMoveFront(front, task) =>
    case _ =>
  }

  lemma WorkerKeepsSizes(s: State, w: nat, wake: Option<nat>)
    requires Shape(s) && Enabled(s, WorkerStep(w, wake))
    ensures var s' := WorkerApply(s, w, wake);
      && s'.ring.Valid() && s'.ring.Size() == s.ring.Size() && s'.exitReleases == s.exitReleases
      && (s'.producers == s.producers
          || (wake.Some? && wake.value < |s.producers| && s.producers[wake.value].at == PSpaceSleep
              && s'.producers == s.producers[wake.value := s.producers[wake.value].(at := PRelockFlag)]))
  {
  }

  lemma StepShape(s: State, l: Label)
    requires Shape(s) && Enabled(s, l)
    ensures Shape(Apply(s, l))
    ensures |Apply(s, l).producers| == |s.producers| && |Apply(s, l).workers| == |s.workers|
    ensures Apply(s, l).ring.Size() == s.ring.Size() && Apply(s, l).exitReleases == s.exitReleases
  {
    match l
    case ProducerStep(p, wake) =>
      ProducerKeepsTask(s, p, wake);
      ProducerKeepsSizes(s, p, wake);
    case WorkerStep(w, wake) =>
      WorkerMovesItself(s, w, wake);
      WorkerKeepsFront(s, w, wake);
      WorkerKeepsSizes(s, w, wake);
    case SpuriousProducer(p) =>
    case SpuriousWorker(w) =>
  }

  // ----- runs -----

  ghost predicate Init(s: State) {
    && s.ring.Valid() && s.ring.front == s.ring.back == 0 && s.ring.fullFlag == 0 && s.ready == 0
    && s.queueLock == s.flagLock == s.readyLock == None
    && (forall p | 0 <= p < |s.producers| :: s.producers[p].at == PLockQueue)
    && |s.workers| >= 1
    && (forall w | 0 <= w < |s.workers| :: s.workers[w] == WLockReady)
    && s.stored == s.taken == s.done == []
  }

  ghost predicate CanRun(s: State, ls: seq<Label>)
    decreases |ls|
  {
    Shape(s) && (ls != [] ==> Enabled(s, ls[0]) && CanRun(Apply(s, ls[0]), ls[1..]))
  }

  ghost function Exec(s: State, ls: seq<Label>): State
    requires CanRun(s, ls)
    decreases |ls|
  {
    if ls == [] then s else Exec(Apply(s, ls[0]), ls[1..])
  }

  // ----- lock discipline and the flag -----

  /** Thread t is between taking lock m and releasing it. */
  predicate Inside(s: State, t: Thread, m: Mutex) {
    match t
    case Prod(p) => p < |s.producers| && PHolds(s.producers[p].at, m)
    case Work(w) => w < |s.workers| && WHolds(s.workers[w], m)
  }

  /** A thread between a lock and its unlock owns the lock. */
  ghost predicate LocksHeld(s: State) {
    forall t, m :: Inside(s, t, m) ==> Owner(s, m) == Some(t)
  }

  /** From the last flag test to raising the flag. */
  predicate PassedTest(at: PStep) {
    at in {PUnlockFlag, PStoreTask, PTestFull, PLockFlagAgain, PRaiseFlag}
  }

  ghost predicate FlagInv(s: State) {
    && 0 <= s.ring.fullFlag <= 1
    && (forall p | 0 <= p < |s.producers| && PassedTest(s.producers[p].at) :: s.ring.fullFlag == 0)
    && (forall w | 0 <= w < |s.workers| && s.workers[w].WLowerFlag? :: s.ring.fullFlag == 1)
  }

  /** How one step of thread t moves the ownership of a lock it held before (h) or after (h'). */
  ghost predicate OwnerMoves(o: Option<Thread>, o': Option<Thread>, h: bool, h': bool, t: Thread) {
    if h == h' then o' == o else if h' then o == None && o' == Some(t) else o' == None
  }

  /** A step of producer p changes no other producer and wakes at most sleeping workers. */
  ghost predicate OnlyProducer(s: State, s': State, p: nat) {
    && p < |s.producers| == |s'.producers| && |s.workers| == |s'.workers|
    && (forall q | 0 <= q < |s.producers| && q != p :: s'.producers[q] == s.producers[q])
    && (forall v | 0 <= v < |s.workers| ::
          s'.workers[v] == s.workers[v] || (s.workers[v] == WTaskSleep && s'.workers[v] == WRelockReady))
    && s'.exitReleases == s.exitReleases
  }

  ghost predicate ProducerMovesLocks(s: State, s': State, p: nat, at: PStep, at': PStep) {
    && OwnerMoves(s.queueLock, s'.queueLock, PHolds(at, QueueM), PHolds(at', QueueM), Prod(p))
    && OwnerMoves(s.flagLock, s'.flagLock, PHolds(at, FlagM), PHolds(at', FlagM), Prod(p))
    && OwnerMoves(s.readyLock, s'.readyLock, PHolds(at, ReadyM), PHolds(at', ReadyM), Prod(p))
  }

  ghost predicate ProducerCounts(s: State, s': State, at: PStep, at': PStep) {
    && s'.ring.fullFlag == s.ring.fullFlag + (if at == PRaiseFlag then 1 else 0)
    && (PassedTest(at') ==> PassedTest(at) || s.ring.fullFlag <= 0) && !(at == PRaiseFlag && PassedTest(at'))
    && s'.ready == s.ready + (if at == PCountTask then 1 else 0)
  }

  /** What any step of producer p does to the locks, the flag, the counter and the other threads. */
  ghost predicate ProducerEffect(s: State, s': State, p: nat) {
    && OnlyProducer(s, s', p)
    && ProducerMovesLocks(s, s', p, s.producers[p].at, s'.producers[p].at)
    && ProducerCounts(s, s', s.producers[p].at, s'.producers[p].at)
  }

  ghost predicate OnlyWorker(s: State, s': State, w: nat) {
    && w < |s.workers| == |s'.workers| && |s.producers| == |s'.producers|
    && (forall v | 0 <= v < |s.workers| && v != w :: s'.workers[v] == s.workers[v])
    && (forall q | 0 <= q < |s.producers| ::
          s'.producers[q] == s.producers[q]
          || (s.producers[q].at == PSpaceSleep && s'.producers[q] == s.producers[q].(at := PRelockFlag)))
    && s'.exitReleases == s.exitReleases
  }

  /** A worker is about to leave the queue lock behind: the empty exit keeps it unless read as releasing. */
  predicate KeepsLock(s: State, at: WStep) { !s.exitReleases && at.WTestEmpty? && s.ring.Empty() }

  ghost predicate WorkerMovesLocks(s: State, s': State, w: nat, at: WStep, at': WStep) {
    && (if KeepsLock(s, at) then !WHolds(at', QueueM) && s'.queueLock == s.queueLock
        else OwnerMoves(s.queueLock, s'.queueLock, WHolds(at, QueueM), WHolds(at', QueueM), Work(w)))
    && OwnerMoves(s.flagLock, s'.flagLock, WHolds(at, FlagM), WHolds(at', FlagM), Work(w))
    && OwnerMoves(s.readyLock, s'.readyLock, WHolds(at, ReadyM), WHolds(at', ReadyM), Work(w))
  }

  ghost predicate WorkerCounts(s: State, s': State, at: WStep, at': WStep) {
    && s'.ring.fullFlag == s.ring.fullFlag - (if at.WLowerFlag? then 1 else 0)
    && (at'.WLowerFlag? ==> at.WTestFlag? && s.ring.fullFlag > 0)
    && s'.ready == s.ready - (if at == WTakeToken then 1 else 0)
    && (at' == WAwaitTask ==> at == WTestReady && s.ready <= 0)
    && (at' == WTakeToken ==> at == WTestReady && s.ready > 0)
  }

  /** What any step of worker w does to the locks, the flag, the counter and the other threads. */
  ghost predicate WorkerEffect(s: State, s': State, w: nat) {
    && OnlyWorker(s, s', w)
    && WorkerMovesLocks(s, s', w, s.workers[w], s'.workers[w])
    && WorkerCounts(s, s', s.workers[w], s'.workers[w])
  }

  lemma ProducerQueueLock(s: State, p: nat, wake: Option<nat>)
    requires Shape(s) && Enabled(s, ProducerStep(p, wake))
    ensures var s' := ProducerApply(s, p, wake);
      var h, h' := PHolds(s.producers[p].at, QueueM), PHolds(s'.producers[p].at, QueueM);
      OwnerMoves(s.queueLock, s'.queueLock, h, h', Prod(p))
  {
  }

  lemma ProducerFlagLock(s: State, p: nat, wake: Option<nat>)
    requires Shape(s) && Enabled(s, ProducerStep(p, wake))
    ensures var s' := ProducerApply(s, p, wake);
      OwnerMoves(s.flagLock, s'.flagLock, PHolds(s.producers[p].at, FlagM), PHolds(s'.producers[p].at, FlagM), Prod(p))
  {
  }

  lemma ProducerReadyLock(s: State, p: nat, wake: Option<nat>)
    requires Shape(s) && Enabled(s, ProducerStep(p, wake))
    ensures var s' := ProducerApply(s, p, wake);
      var h, h' := PHolds(s.producers[p].at, ReadyM), PHolds(s'.producers[p].at, ReadyM);
      OwnerMoves(s.readyLock, s'.readyLock, h, h', Prod(p))
  {
  }

  lemma ProducerStepEffect(s: State, p: nat, wake: Option<nat>)
    requires Shape(s) && Enabled(s, ProducerStep(p, wake))
    ensures ProducerEffect(s, ProducerApply(s, p, wake), p)
  {
    ProducerQueueLock(s, p, wake);
    ProducerFlagLock(s, p, wake);
    ProducerReadyLock(s, p, wake);
    ProducerStepOthers(s, p, wake);
    ProducerNumbers(s, p, wake);
    ProducerTests(s, p, wake);
  }

  lemma ProducerStepOthers(s: State, p: nat, wake: Option<nat>)
    requires Shape(s) && Enabled(s, ProducerStep(p, wake))
    ensures OnlyProducer(s, ProducerApply(s, p, wake), p)
  {
  }

  lemma ProducerNumbers(s: State, p: nat, wake: Option<nat>)
    requires Shape(s) && Enabled(s, ProducerStep(p, wake))
    ensures var s' := ProducerApply(s, p, wake);
      && s'.ring.fullFlag == s.ring.fullFlag + (if s.producers[p].at == PRaiseFlag then 1 else 0)
      && s'.ready == s.ready + (if s.producers[p].at == PCountTask then 1 else 0)
  {
  }

  lemma ProducerTests(s: State, p: nat, wake: Option<nat>)
    requires Shape(s) && Enabled(s, ProducerStep(p, wake))
    ensures p < |ProducerApply(s, p, wake).producers|
    ensures var at, at' := s.producers[p].at, ProducerApply(s, p, wake).producers[p].at;
      (PassedTest(at') ==> PassedTest(at) || s.ring.fullFlag <= 0) && !(at == PRaiseFlag && PassedTest(at'))
  {
  }

  lemma WorkerQueueLock(s: State, w: nat, wake: Option<nat>)
    requires Shape(s) && Enabled(s, WorkerStep(w, wake))
    ensures var s' := WorkerApply(s, w, wake);
      if KeepsLock(s, s.workers[w]) then !WHolds(s'.workers[w], QueueM) && s'.queueLock == s.queueLock
      else OwnerMoves(s.queueLock, s'.queueLock, WHolds(s.workers[w], QueueM), WHolds(s'.workers[w], QueueM), Work(w))
  {
  }

  lemma WorkerFlagLock(s: State, w: nat, wake: Option<nat>)
    requires Shape(s) && Enabled(s, WorkerStep(w, wake))
    ensures var s' := WorkerApply(s, w, wake);
      OwnerMoves(s.flagLock, s'.flagLock, WHolds(s.workers[w], FlagM), WHolds(s'.workers[w], FlagM), Work(w))
  {
  }

  lemma WorkerReadyLock(s: State, w: nat, wake: Option<nat>)
    requires Shape(s) && Enabled(s, WorkerStep(w, wake))
    ensures var s' := WorkerApply(s, w, wake);
      OwnerMoves(s.readyLock, s'.readyLock, WHolds(s.workers[w], ReadyM), WHolds(s'.workers[w], ReadyM), Work(w))
  {
  }

  lemma WorkerStepOthers(s: State, w: nat, wake: Option<nat>)
    requires Shape(s) && Enabled(s, WorkerStep(w, wake))
    ensures OnlyWorker(s, WorkerApply(s, w, wake), w)
  {
  }

  lemma WorkerNumbers(s: State, w: nat, wake: Option<nat>)
    requires Shape(s) && Enabled(s, WorkerStep(w, wake))
    ensures var s' := WorkerApply(s, w, wake);
      && s'.ring.fullFlag == s.ring.fullFlag - (if s.workers[w].WLowerFlag? then 1 else 0)
      && s'.ready == s.ready - (if s.workers[w] == WTakeToken then 1 else 0)
  {
  }

  lemma WorkerTestsFlag(s: State, w: nat, wake: Option<nat>)
    requires Shape(s) && Enabled(s, WorkerStep(w, wake))
    ensures w < |WorkerApply(s, w, wake).workers|
    ensures WorkerApply(s, w, wake).workers[w].WLowerFlag? ==> s.workers[w].WTestFlag? && s.ring.fullFlag > 0
  {
  }

  lemma WorkerAwaits(s: State, w: nat, wake: Option<nat>)
    requires Shape(s) && Enabled(s, WorkerStep(w, wake))
    ensures w < |WorkerApply(s, w, wake).workers|
    ensures WorkerApply(s, w, wake).workers[w] == WAwaitTask ==> s.workers[w] == WTestReady && s.ready <= 0
  {
  }

  lemma WorkerTakes(s: State, w: nat, wake: Option<nat>)
    requires Shape(s) && Enabled(s, WorkerStep(w, wake))
    ensures w < |WorkerApply(s, w, wake).workers|
    ensures WorkerApply(s, w, wake).workers[w] == WTakeToken ==> s.workers[w] == WTestReady && s.ready > 0
  {
  }

  lemma WorkerStepEffect(s: State, w: nat, wake: Option<nat>)
    requires Shape(s) && Enabled(s, WorkerStep(w, wake))
    ensures WorkerEffect(s, WorkerApply(s, w, wake), w)
  {
    WorkerQueueLock(s, w, wake);
    WorkerFlagLock(s, w, wake);
    WorkerReadyLock(s, w, wake);
    WorkerStepOthers(s, w, wake);
    WorkerNumbers(s, w, wake);
    WorkerTestsFlag(s, w, wake);
    WorkerAwaits(s, w, wake);
    WorkerTakes(s, w, wake);
  }

  lemma ProducerLocks(s: State, s': State, p: nat)
    requires LocksHeld(s) && ProducerEffect(s, s', p)
    ensures LocksHeld(s')
  {
    forall t, m | Inside(s', t, m) ensures Owner(s', m) == Some(t) {
      assert Inside(s, Prod(p), m) ==> Owner(s, m) == Some(Prod(p));
      if t != Prod(p) {
        assert Inside(s, t, m);
      }
    }
  }

  lemma WorkerLocks(s: State, s': State, w: nat)
    requires LocksHeld(s) && WorkerEffect(s, s', w)
    ensures LocksHeld(s')
  {
    forall t, m | Inside(s', t, m) ensures Owner(s', m) == Some(t) {
      assert Inside(s, Work(w), m) ==> Owner(s, m) == Some(Work(w));
      if t != Work(w) {
        assert Inside(s, t, m);
      }
    }
  }

  lemma ProducerFlag(s: State, s': State, p: nat)
    requires LocksHeld(s) && FlagInv(s) && ProducerEffect(s, s', p)
    ensures FlagInv(s')
  {
    forall q | 0 <= q < |s.producers| && PassedTest(s.producers[q].at) && s.producers[p].at == PRaiseFlag
      ensures q == p
    {
      assert Inside(s, Prod(q), QueueM) && Inside(s, Prod(p), QueueM);
    }
    forall v | 0 <= v < |s.workers| && s'.workers[v].WLowerFlag? ensures s.workers[v].WLowerFlag? {
    }
  }

  lemma WorkerFlag(s: State, s': State, w: nat)
    requires LocksHeld(s) && FlagInv(s) && WorkerEffect(s, s', w)
    ensures FlagInv(s')
  {
    forall v | 0 <= v < |s.workers| && s.workers[v].WLowerFlag? && s.workers[w].WLowerFlag? ensures v == w {
      assert Inside(s, Work(v), FlagM) && Inside(s, Work(w), FlagM);
    }
  }

  /** Every step keeps lock ownership and the flag in step. */
  lemma StepLocks(s: State, l: Label)
    requires Shape(s) && LocksHeld(s) && Enabled(s, l)
    ensures LocksHeld(Apply(s, l))
    ensures FlagInv(s) ==> FlagInv(Apply(s, l))
  {
    var s' := Apply(s, l);
    match l
    case ProducerStep(p, wake) =>
      ProducerStepEffect(s, p, wake);
      ProducerLocks(s, s', p);
      if FlagInv(s) {
        ProducerFlag(s, s', p);
      }
    case WorkerStep(w, wake) =>
      WorkerStepEffect(s, w, wake);
      WorkerLocks(s, s', w);
      if FlagInv(s) {
        WorkerFlag(s, s', w);
      }
    case SpuriousProducer(p) =>
      forall t, m | Inside(s', t, m) ensures Owner(s', m) == Some(t) {
        assert Inside(s, t, m);
      }
    case SpuriousWorker(w) =>
      forall t, m | Inside(s', t, m) ensures Owner(s', m) == Some(t) {
        assert Inside(s, t, m);
      }
  }

  lemma {:induction false} RunFlag(s: State, ls: seq<Label>)
    requires LocksHeld(s) && FlagInv(s) && CanRun(s, ls)
    ensures LocksHeld(Exec(s, ls)) && FlagInv(Exec(s, ls))
    decreases |ls|
  {
    if ls != [] {
      StepLocks(s, ls[0]);
      RunFlag(Apply(s, ls[0]), ls[1..]);
    }
  }

  /** For any number of producers and workers, in every reachable state the flag is 0 or 1, and a
      producer between its last flag test and its count owns the queue lock with the flag down. */
  lemma {:induction false} FlagIsZeroOrOne(s0: State, ls: seq<Label>)
    requires Init(s0) && CanRun(s0, ls)
    ensures var s := Exec(s0, ls);
      && 0 <= s.ring.fullFlag <= 1
      && forall p | 0 <= p < |s.producers| && PassedTest(s.producers[p].at) ::
           s.queueLock == Some(Prod(p)) && s.ring.fullFlag == 0
  {
    RunFlag(s0, ls);
    var s := Exec(s0, ls);
    forall p | 0 <= p < |s.producers| && PassedTest(s.producers[p].at)
      ensures s.queueLock == Some(Prod(p))
    {
      assert Inside(s, Prod(p), QueueM);
    }
  }

  // ----- waiting for space -----

  /** A producer decides to wait only while the flag is up: it has just tested it, and holds its lock. */
  ghost predicate WaitersSawFlag(s: State) {
    forall p | 0 <= p < |s.producers| && (s.producers[p].at == PYieldQueue || s.producers[p].at == PAwaitSpace) ::
      s.ring.fullFlag == 1
  }

  lemma ProducerSawFlag(s: State, p: nat, wake: Option<nat>)
    requires Shape(s) && Enabled(s, ProducerStep(p, wake))
    ensures p < |ProducerApply(s, p, wake).producers|
    ensures var at, at' := s.producers[p].at, ProducerApply(s, p, wake).producers[p].at;
      && (at' == PYieldQueue ==> at == PTestFlag && s.ring.fullFlag > 0)
      && (at' == PAwaitSpace ==> at == PYieldQueue)
      && (at' == PSpaceSleep ==> at == PAwaitSpace)
  {
  }

  lemma ProducerWaits(s: State, p: nat, wake: Option<nat>)
    requires Shape(s) && LocksHeld(s) && FlagInv(s) && WaitersSawFlag(s) && Enabled(s, ProducerStep(p, wake))
    ensures WaitersSawFlag(ProducerApply(s, p, wake))
  {
    hide ProducerApply;
    ProducerStepEffect(s, p, wake);
    ProducerSawFlag(s, p, wake);
    assert s.producers[p].at == PRaiseFlag ==> PassedTest(s.producers[p].at);
  }

  lemma WorkerWaits(s: State, w: nat, wake: Option<nat>)
    requires Shape(s) && LocksHeld(s) && WaitersSawFlag(s) && Enabled(s, WorkerStep(w, wake))
    ensures WaitersSawFlag(WorkerApply(s, w, wake))
  {
    hide WorkerApply;
    WorkerStepEffect(s, w, wake);
    forall p: nat | p < |s.producers| && PHolds(s.producers[p].at, FlagM) ensures !s.workers[w].WLowerFlag? {
      assert Inside(s, Prod(p), FlagM);
      assert !Inside(s, Work(w), FlagM);
    }
  }

  lemma StepWaits(s: State, l: Label)
    requires Shape(s) && LocksHeld(s) && FlagInv(s) && WaitersSawFlag(s) && Enabled(s, l)
    ensures WaitersSawFlag(Apply(s, l))
  {
    match l
    case ProducerStep(p, wake) => ProducerWaits(s, p, wake);
    case WorkerStep(w, wake) => WorkerWaits(s, w, wake);
    case SpuriousProducer(p) =>
    case SpuriousWorker(w) =>
  }

  /** A lone producer that sleeps for space sleeps over a raised flag, or is about to be signalled. */
  ghost predicate SleepsOnFlag(s: State) {
    |s.producers| == 1 && s.producers[0].at == PSpaceSleep ==>
      s.ring.fullFlag == 1 || exists w: nat :: w < |s.workers| && s.workers[w].WSignalSpace?
  }

  lemma ProducerSleeps(s: State, p: nat, wake: Option<nat>)
    requires Shape(s) && FlagInv(s) && WaitersSawFlag(s) && SleepsOnFlag(s) && Enabled(s, ProducerStep(p, wake))
    ensures SleepsOnFlag(ProducerApply(s, p, wake))
  {
    hide ProducerApply;
    ProducerStepEffect(s, p, wake);
    ProducerSawFlag(s, p, wake);
  }

  /** A worker that lowers the flag goes on to signal, and the signal finds the sleeper. */
  lemma WorkerSignals(s: State, w: nat, wake: Option<nat>)
    requires Shape(s) && Enabled(s, WorkerStep(w, wake))
    ensures w < |WorkerApply(s, w, wake).workers|
    ensures s.workers[w].WLowerFlag? ==> WorkerApply(s, w, wake).workers[w].WSignalSpace?
    ensures s.workers[w].WSignalSpace? ==> forall p: nat | p < |s.producers| && s.producers[p].at == PSpaceSleep ::
      wake.Some? && (|s.producers| == 1 ==> WorkerApply(s, w, wake).producers[p].at == PRelockFlag)
  {
  }

  lemma WorkerSleeps(s: State, w: nat, wake: Option<nat>)
    requires Shape(s) && FlagInv(s) && SleepsOnFlag(s) && Enabled(s, WorkerStep(w, wake))
    ensures SleepsOnFlag(WorkerApply(s, w, wake))
  {
    hide WorkerApply;
    WorkerStepEffect(s, w, wake);
    WorkerSignals(s, w, wake);
    var s' := WorkerApply(s, w, wake);
    if |s.producers| == 1 && s.producers[0].at == PSpaceSleep && s.ring.fullFlag != 1 {
      var v: nat :| v < |s.workers| && s.workers[v].WSignalSpace?;
      assert v != w ==> s'.workers[v].WSignalSpace?;
    }
    assert s.workers[w].WLowerFlag? ==> s'.workers[w].WSignalSpace?;
  }

  lemma StepSleeps(s: State, l: Label)
    requires Shape(s) && FlagInv(s) && WaitersSawFlag(s) && SleepsOnFlag(s) && Enabled(s, l)
    ensures SleepsOnFlag(Apply(s, l))
  {
    match l
    case ProducerStep(p, wake) => ProducerSleeps(s, p, wake);
    case WorkerStep(w, wake) => WorkerSleeps(s, w, wake);
    case SpuriousProducer(p) =>
    case SpuriousWorker(w) =>
      if v: nat :| v < |s.workers| && s.workers[v].WSignalSpace? {
        assert Apply(s, l).workers[v].WSignalSpace?;
      }
  }

  lemma {:induction false} RunWaits(s: State, ls: seq<Label>)
    requires LocksHeld(s) && FlagInv(s) && WaitersSawFlag(s) && SleepsOnFlag(s) && CanRun(s, ls)
    ensures WaitersSawFlag(Exec(s, ls)) && SleepsOnFlag(Exec(s, ls))
    decreases |ls|
  {
    hide Apply, Enabled, LocksHeld, FlagInv, WaitersSawFlag, SleepsOnFlag;
    if ls != [] {
      StepLocks(s, ls[0]);
      StepWaits(s, ls[0]);
      StepSleeps(s, ls[0]);
      RunWaits(Apply(s, ls[0]), ls[1..]);
    }
  }

  /** For any number of producers and workers a producer lets the queue go to wait for space only while the
      flag is up; and a lone producer that sleeps for space does so while the flag is up or a worker is
      about to signal it. */
  lemma {:induction false} WaitsOnlyForFlag(s0: State, ls: seq<Label>)
    requires Init(s0) && CanRun(s0, ls)
    ensures var s := Exec(s0, ls);
      && (forall p | 0 <= p < |s.producers| && (s.producers[p].at == PYieldQueue || s.producers[p].at == PAwaitSpace) ::
            s.ring.fullFlag == 1)
      && (|s.producers| == 1 && s.producers[0].at == PSpaceSleep ==>
            s.ring.fullFlag == 1 || exists w: nat :: w < |s.workers| && s.workers[w].WSignalSpace?)
  {
    RunWaits(s0, ls);
  }

  // ----- work-conserving wake-ups -----

  predicate AwakeAtCheck(at: WStep) {
    at in {WLockReady, WTestReady, WAwaitTask, WRelockReady, WTakeToken}
  }

  function AwakeWeight(at: WStep): int { if AwakeAtCheck(at) then 1 else 0 }

  function PendingWeight(p: Producer): int { if p.at == PUnlockReady || p.at == PSignalTask then 1 else 0 }

  ghost predicate SomeoneSleeps(s: State) {
    exists w: nat :: w < |s.workers| && s.workers[w] == WTaskSleep
  }

  ghost predicate ReadyInv(s: State) {
    && s.ready >= 0
    && (forall w | 0 <= w < |s.workers| && s.workers[w] == WAwaitTask :: s.ready == 0)
    && (forall w | 0 <= w < |s.workers| && s.workers[w] == WTakeToken :: s.ready > 0)
  }

  ghost predicate WorkConserving(s: State) {
    SomeoneSleeps(s) ==> s.ready <= Sum(s.workers, AwakeWeight) + Sum(s.producers, PendingWeight)
  }

  lemma ProducerReady(s: State, s': State, p: nat)
    requires LocksHeld(s) && ReadyInv(s) && ProducerEffect(s, s', p)
    ensures ReadyInv(s')
  {
    forall v: nat | v < |s.workers| && s.producers[p].at == PCountTask ensures !WHolds(s.workers[v], ReadyM) {
      assert Inside(s, Prod(p), ReadyM);
      assert !Inside(s, Work(v), ReadyM);
    }
  }

  lemma WorkerReady(s: State, s': State, w: nat)
    requires LocksHeld(s) && ReadyInv(s) && WorkerEffect(s, s', w)
    ensures ReadyInv(s')
  {
    forall v | 0 <= v < |s.workers| && WHolds(s.workers[v], ReadyM) && s.workers[w] == WTakeToken ensures v == w {
      assert Inside(s, Work(v), ReadyM) && Inside(s, Work(w), ReadyM);
    }
  }

  lemma StepReady(s: State, l: Label)
    requires Shape(s) && LocksHeld(s) && ReadyInv(s) && Enabled(s, l)
    ensures ReadyInv(Apply(s, l))
  {
    match l
    case ProducerStep(p, wake) =>
      ProducerStepEffect(s, p, wake);
      ProducerReady(s, Apply(s, l), p);
    case WorkerStep(w, wake) =>
      WorkerStepEffect(s, w, wake);
      WorkerReady(s, Apply(s, l), w);
    case SpuriousProducer(p) =>
    case SpuriousWorker(w) =>
  }

  lemma AwakeNonNegative(s: State)
    ensures Sum(s.workers, AwakeWeight) >= 0 && Sum(s.producers, PendingWeight) >= 0
  {
    SumNonNegative(s.workers, AwakeWeight);
    SumNonNegative(s.producers, PendingWeight);
  }

  /** A count makes one more signal pending; a signal ends one and wakes a sleeper if there is one. */
  lemma PendingStep(s: State, p: nat, wake: Option<nat>)
    requires Shape(s) && Enabled(s, ProducerStep(p, wake))
    ensures var s' := ProducerApply(s, p, wake);
      && s'.producers == s.producers[p := s'.producers[p]]
      && s'.workers == (if wake.Some? then s.workers[wake.value := WRelockReady] else s.workers)
      && s'.ready - PendingWeight(s'.producers[p]) - (if s.producers[p].at == PSignalTask then 1 else 0)
           == s.ready - PendingWeight(s.producers[p])
      && (s.producers[p].at == PSignalTask && SomeoneSleeps(s) ==> wake.Some? && s.workers[wake.value] == WTaskSleep)
      && (s.producers[p].at != PSignalTask ==> wake == None)
  {
  }

  lemma ProducerWakes(s: State, p: nat, wake: Option<nat>)
    requires Shape(s) && WorkConserving(s) && Enabled(s, ProducerStep(p, wake))
    ensures WorkConserving(ProducerApply(s, p, wake))
  {
    hide ProducerApply;
    PendingStep(s, p, wake);
    var s' := ProducerApply(s, p, wake);
    SumUpdate(s.producers, p, s'.producers[p], PendingWeight);
    if wake.Some? && SomeoneSleeps(s) {
      SumUpdate(s.workers, wake.value, WRelockReady, AwakeWeight);
    }
    if SomeoneSleeps(s') {
      var z: nat :| z < |s'.workers| && s'.workers[z] == WTaskSleep;
      assert s.workers[z] == WTaskSleep;
    }
  }

  lemma WorkerWakes(s: State, w: nat, wake: Option<nat>)
    requires Shape(s) && ReadyInv(s) && WorkConserving(s) && Enabled(s, WorkerStep(w, wake))
    ensures WorkConserving(WorkerApply(s, w, wake))
  {
    var s' := WorkerApply(s, w, wake);
    WorkerStepEffect(s, w, wake);
    SumUpdate(s.workers, w, s'.workers[w], AwakeWeight);
    assert s'.workers == s.workers[w := s'.workers[w]];
    PendingKept(s, w, wake);
    AwakeNonNegative(s');
    AwakeStep(s, w, wake);
    if SomeoneSleeps(s') && s.workers[w] != WAwaitTask {
      var z: nat :| z < |s'.workers| && s'.workers[z] == WTaskSleep;
      assert s.workers[z] == WTaskSleep;
    }
  }

  lemma PendingKept(s: State, w: nat, wake: Option<nat>)
    requires Shape(s) && Enabled(s, WorkerStep(w, wake))
    ensures Sum(WorkerApply(s, w, wake).producers, PendingWeight) == Sum(s.producers, PendingWeight)
  {
    if wake.Some? {
      SumUpdate(s.producers, wake.value, s.producers[wake.value].(at := PRelockFlag), PendingWeight);
    }
  }

  /** A worker stops being awake at the check only by taking a token or by going to sleep. */
  lemma AwakeStep(s: State, w: nat, wake: Option<nat>)
    requires Shape(s) && Enabled(s, WorkerStep(w, wake))
    ensures var at, at' := s.workers[w], WorkerApply(s, w, wake).workers[w];
      && (AwakeAtCheck(at) && !AwakeAtCheck(at') ==> at == WTakeToken || at == WAwaitTask)
      && (at' == WTaskSleep ==> at == WAwaitTask)
  {
  }

  lemma StepWakes(s: State, l: Label)
    requires Shape(s) && ReadyInv(s) && WorkConserving(s) && Enabled(s, l)
    ensures WorkConserving(Apply(s, l))
  {
    match l
    case ProducerStep(p, wake) => ProducerWakes(s, p, wake);
    case WorkerStep(w, wake) => WorkerWakes(s, w, wake);
    case SpuriousProducer(p) => SumUpdate(s.producers, p, Apply(s, l).producers[p], PendingWeight);
    case SpuriousWorker(w) =>
      SumUpdate(s.workers, w, WRelockReady, AwakeWeight);
      assert s.workers[w] == WTaskSleep;
  }

  lemma {:induction false} RunWakes(s: State, ls: seq<Label>)
    requires LocksHeld(s) && ReadyInv(s) && WorkConserving(s) && CanRun(s, ls)
    ensures ReadyInv(Exec(s, ls)) && WorkConserving(Exec(s, ls))
    decreases |ls|
  {
    if ls != [] {
      StepLocks(s, ls[0]);
      StepReady(s, ls[0]);
      StepWakes(s, ls[0]);
      RunWakes(Apply(s, ls[0]), ls[1..]);
    }
  }

  /** For any number of producers and workers: if any worker sleeps, the ready tasks are at most the
      workers awake at the check plus the producers that have counted but not yet signalled. So if
      all workers sleep over ready work, a signal is on its way. */
  lemma {:induction false} WakeupsConserveWork(s0: State, ls: seq<Label>)
    requires Init(s0) && CanRun(s0, ls)
    ensures var s := Exec(s0, ls);
      && (SomeoneSleeps(s) ==> 0 <= s.ready <= Sum(s.workers, AwakeWeight) + Sum(s.producers, PendingWeight))
      && ((forall w | 0 <= w < |s.workers| :: s.workers[w] == WTaskSleep) && SomeoneSleeps(s) && s.ready > 0
          ==> exists p :: 0 <= p < |s.producers| && PendingWeight(s.producers[p]) == 1)
  {
    assert !SomeoneSleeps(s0);
    RunWakes(s0, ls);
    var s := Exec(s0, ls);
    if (forall w | 0 <= w < |s.workers| :: s.workers[w] == WTaskSleep) && SomeoneSleeps(s) && s.ready > 0 {
      SumUniform(s.workers, AwakeWeight, 0);
      if forall p | 0 <= p < |s.producers| :: PendingWeight(s.producers[p]) == 0 {
        SumUniform(s.producers, PendingWeight, 0);
      }
    }
  }

  // ----- lock cycles -----

  ghost predicate IsThread(s: State, t: Thread) {
    match t case Prod(p) => p < |s.producers| case Work(w) => w < |s.workers|
  }

  ghost function Wants(s: State, t: Thread): Option<Mutex>
    requires IsThread(s, t)
  {
    match t
    case Prod(p) =>
      var at := s.producers[p].at;
      if at == PLockQueue && s.producers[p].todo == [] then None else PWants(at)
    case Work(w) => WWants(s.workers[w])
  }

  /** Thread t is at a lock that thread u owns. */
  ghost predicate WaitsFor(s: State, t: Thread, u: Thread) {
    IsThread(s, t) && Wants(s, t).Some? && Owner(s, Wants(s, t).value) == Some(u)
  }

  /** A chain of threads each waiting for the next, ending where it started. */
  ghost predicate LockCycle(s: State, chain: seq<Thread>) {
    && |chain| >= 2 && chain[0] == chain[|chain| - 1]
    && forall i | 0 <= i < |chain| - 1 :: WaitsFor(s, chain[i], chain[i + 1])
  }

  /** A lock is owned only by a thread between that lock and its unlock. */
  ghost predicate OwnersHold(s: State) {
    forall m :: Owner(s, m).Some? ==> Inside(s, Owner(s, m).value, m)
  }

  lemma ProducerOwners(s: State, s': State, p: nat)
    requires LocksHeld(s) && OwnersHold(s) && ProducerEffect(s, s', p)
    ensures OwnersHold(s')
  {
    forall m | Owner(s', m).Some? ensures Inside(s', Owner(s', m).value, m) {
      assert Owner(s, m).Some? ==> Inside(s, Owner(s, m).value, m);
      assert Inside(s, Prod(p), m) ==> Owner(s, m) == Some(Prod(p));
    }
  }

  lemma WorkerOwners(s: State, s': State, w: nat)
    requires LocksHeld(s) && OwnersHold(s) && WorkerEffect(s, s', w) && !KeepsLock(s, s.workers[w])
    ensures OwnersHold(s')
  {
    forall m | Owner(s', m).Some? ensures Inside(s', Owner(s', m).value, m) {
      assert Owner(s, m).Some? ==> Inside(s, Owner(s, m).value, m);
      assert Inside(s, Work(w), m) ==> Owner(s, m) == Some(Work(w));
    }
  }

  lemma StepOwners(s: State, l: Label)
    requires Shape(s) && LocksHeld(s) && OwnersHold(s) && Enabled(s, l)
    requires l.WorkerStep? ==> !KeepsLock(s, s.workers[l.w])
    ensures OwnersHold(Apply(s, l))
  {
    match l
    case ProducerStep(p, wake) =>
      ProducerStepEffect(s, p, wake);
      ProducerOwners(s, Apply(s, l), p);
    case WorkerStep(w, wake) =>
      WorkerStepEffect(s, w, wake);
      WorkerOwners(s, Apply(s, l), w);
    case SpuriousProducer(p) =>
      forall m | Owner(s, m).Some? ensures Inside(Apply(s, l), Owner(s, m).value, m) {
        assert Inside(s, Owner(s, m).value, m);
      }
      assert forall m :: Owner(Apply(s, l), m) == Owner(s, m);
    case SpuriousWorker(w) =>
      forall m | Owner(s, m).Some? ensures Inside(Apply(s, l), Owner(s, m).value, m) {
        assert Inside(s, Owner(s, m).value, m);
      }
      assert forall m :: Owner(Apply(s, l), m) == Owner(s, m);
  }

  lemma {:induction false} RunOwners(s: State, ls: seq<Label>)
    requires s.exitReleases && LocksHeld(s) && OwnersHold(s) && CanRun(s, ls)
    ensures LocksHeld(Exec(s, ls)) && OwnersHold(Exec(s, ls)) && |Exec(s, ls).producers| == |s.producers|
    decreases |ls|
  {
    if ls != [] {
      StepLocks(s, ls[0]);
      StepOwners(s, ls[0]);
      StepShape(s, ls[0]);
      RunOwners(Apply(s, ls[0]), ls[1..]);
    }
  }

  /** A worker at a lock owns nothing, so nobody waits for it. */
  lemma WaitedForIsProducer(s: State, t: Thread, u: Thread, v: Thread)
    requires OwnersHold(s) && WaitsFor(s, t, u) && WaitsFor(s, u, v)
    ensures u.Prod?
  {
    var m := Wants(s, t).value;
    assert Owner(s, m) == Some(u);
  }

  lemma CycleHasTwoProducers(s: State, chain: seq<Thread>)
    requires OwnersHold(s) && LockCycle(s, chain)
    ensures |s.producers| >= 2
  {
    var n := |chain|;
    var t, u := chain[0], chain[1];
    assert WaitsFor(s, t, u) && WaitsFor(s, chain[n - 2], t);
    WaitedForIsProducer(s, chain[n - 2], t, u);
    var v := if n == 2 then u else chain[2];
    assert WaitsFor(s, u, v);
    WaitedForIsProducer(s, t, u, v);
    OwnLockNotAwaited(s, t);
  }

  /** No producer is at a lock that it owns. */
  lemma OwnLockNotAwaited(s: State, t: Thread)
    requires OwnersHold(s) && t.Prod?
    ensures !WaitsFor(s, t, t)
  {
    assert forall m :: Owner(s, m) == Some(t) ==> Inside(s, t, m);
  }

  /** With at most one producer, and the empty exit read as releasing the queue lock, no reachable state has
      a cycle of threads waiting for each other's locks, whatever the number of workers. */
  lemma {:induction false} SoloNoLockCycle(s0: State, ls: seq<Label>, chain: seq<Thread>)
    requires Init(s0) && s0.exitReleases && |s0.producers| <= 1 && CanRun(s0, ls)
    ensures !LockCycle(Exec(s0, ls), chain)
  {
    RunOwners(s0, ls);
    if LockCycle(Exec(s0, ls), chain) {
      CycleHasTwoProducers(Exec(s0, ls), chain);
    }
  }
}
