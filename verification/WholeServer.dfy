/** The dispatcher over the pool as written: the event loop is the pool's one producer, and each worker
    runs process_task as its job. In the pool's safe regimes every run of the two together is a run of
    the dispatcher over an atomic queue, so what is proved of that holds of the whole server. */
module WholeServer {
  import opened Wrappers
  import F = Fine
  import FR = FineRefinement
  import M = Monitor
  import Tally
  import opened Server
  import opened Dispatcher
  import opened Tokens
  import opened Relay
  import opened ServerRuns
  import opened ServerTheorems

  /** `base` is the dispatcher without its queue: its own ring is not used, and an event that the loop is
      adding is with the pool's producer, not in its batch. */
  datatype Whole = Whole(base: State, pool: F.State)

  datatype Step =
    | Call                     // the event loop enters tpool_add_task with the next event
    | Pool(l: F.Label)         // one step of the pool's code, in the loop's thread or a worker's
    | Outside(d: Label)        // the event loop outside tpool_add_task, or a worker in process_task

  ghost predicate OneProducer(p: F.State) { |p.producers| == 1 }

  /** The dispatcher's state that the whole stands for. */
  ghost function View(x: Whole): State
    requires OneProducer(x.pool)
  {
    x.base.(ring := x.pool.ring, batch := x.pool.producers[0].todo + x.base.batch)
  }

  /** The event loop is not inside tpool_add_task. */
  ghost predicate LoopOutside(p: F.State) {
    OneProducer(p) && p.producers[0] == F.Producer(F.PLockQueue, [])
  }

  predicate RunsJob(p: F.State, w: nat) { w < |p.workers| && p.workers[w].WRunJob? }

  ghost predicate CanStep(x: Whole, st: Step)
    requires OneProducer(x.pool) && F.Shape(x.pool) && Shape(View(x))
  {
    match st
    case Call => LoopOutside(x.pool) && x.base.batch != [] && x.base.batch[0] != x.base.timerUnit
    case Pool(l) =>
      && F.Enabled(x.pool, l)
      && (l.WorkerStep? && x.pool.workers[l.w].WRunJob? ==> l.w < |x.base.workers| && x.base.workers[l.w] == Idle)
      && (l.WorkerStep? ==> l.w < |x.base.workers|)
    case Outside(d) =>
      && Enabled(View(x), d)
      && match d
         case EpollWait(_) => LoopOutside(x.pool)
         case SweepTimers(_) => LoopOutside(x.pool)
         case HangUp => LoopOutside(x.pool)
         case AddTask => false
         case Take(_) => false
         case _ => RunsJob(x.pool, d.w)
  }

  /** A worker that moves the front leaves with the task it read, to start process_task on it. */
  ghost function HandlersAfter(x: Whole, l: F.Label): seq<Handler>
    requires F.Enabled(x.pool, l) && (l.WorkerStep? ==> l.w < |x.base.workers|)
  {
    if l.WorkerStep? && x.pool.workers[l.w].WMoveFront? then
      var task := x.pool.workers[l.w].task;
      x.base.workers[l.w := if task != 0 then Started(task) else Idle]
    else
      x.base.workers
  }

  ghost function After(x: Whole, st: Step): Whole
    requires OneProducer(x.pool) && F.Shape(x.pool) && Shape(View(x)) && CanStep(x, st)
  {
    match st
    case Call =>
      Whole(x.base.(batch := x.base.batch[1..]),
            x.pool.(producers := [F.Producer(F.PLockQueue, [x.base.batch[0]])]))
    case Pool(l) => Whole(x.base.(workers := HandlersAfter(x, l)), F.Apply(x.pool, l))
    case Outside(d) =>
      var s' := Apply(View(x), d);
      Whole(if LoopOutside(x.pool) then s' else s'.(batch := x.base.batch), x.pool)
  }

  // ----- the invariant -----

  /** Where a worker is in the pool's code says whether it has a handler. */
  predicate InStep(at: F.WStep, h: Handler) {
    match FR.WorkerOf(at)
    case Running(task) => at.WRunJob? || h == Started(task)
    case _ => h == Idle
  }

  /** The pool is in a safe regime, and its threads and the dispatcher's agree. */
  ghost predicate PoolInv(x: Whole, k: nat) {
    && OneProducer(x.pool) && |x.pool.producers[0].todo| <= 1
    && F.Shape(x.pool) && FR.Calm(x.pool)
    && FR.Safe(x.pool.ring.Size(), |x.pool.workers|, k) && k <= x.pool.ring.Size() - 2
    && |x.base.workers| == |x.pool.workers|
    && (forall w | 0 <= w < |x.pool.workers| :: InStep(x.pool.workers[w], x.base.workers[w]))
    && (x.pool.producers[0].todo != [] ==> x.pool.producers[0].todo[0] != x.base.timerUnit)
  }

  ghost predicate WholeInv(x: Whole, k: nat) {
    && PoolInv(x, k)
    && SlabInv(View(x)) && TokenInv(View(x)) && RelayInv(View(x))
  }

  /** The dispatcher's step that a step of the whole carries out, if any. */
  ghost function LabelOf(x: Whole, st: Step): Option<Label>
    requires OneProducer(x.pool)
  {
    match st
    case Call => None
    case Pool(l) =>
      if l.ProducerStep? && l.p == 0 && x.pool.producers[0].at == F.PStoreTask then Some(AddTask)
      else if l.WorkerStep? && l.w < |x.pool.workers| && x.pool.workers[l.w].WMoveFront? then Some(Take(l.w))
      else None
    case Outside(d) => Some(d)
  }

  // ----- one step -----

  /** A step of the whole carries out that step of the dispatcher, or none. */
  ghost predicate Refines(x: Whole, st: Step)
    requires OneProducer(x.pool) && F.Shape(x.pool) && Shape(View(x)) && CanStep(x, st)
    requires OneProducer(After(x, st).pool)
  {
    match LabelOf(x, st)
    case None => View(After(x, st)) == View(x)
    case Some(l) => Enabled(View(x), l) && View(After(x, st)) == Apply(View(x), l)
  }

  lemma CallCalm(p: F.State, task: int)
    requires FR.Calm(p) && LoopOutside(p)
    ensures FR.Calm(p.(producers := [F.Producer(F.PLockQueue, [task])]))
  {
    var p' := p.(producers := [F.Producer(F.PLockQueue, [task])]);
    var before, after := FR.Abs(p), FR.Abs(p');
    Tally.SumUniform(before.producers, M.StoredWeight, 0);
    Tally.SumUniform(after.producers, M.StoredWeight, 0);
    forall t, m | F.Inside(p', t, m) ensures F.Owner(p', m) == Some(t) {
      assert F.Inside(p, t, m);
    }
    forall t ensures M.JobCounted(after, t) {
      assert M.JobCounted(before, t);
    }
  }

  lemma CallStep(x: Whole, k: nat)
    requires PoolInv(x, k) && Shape(View(x)) && CanStep(x, Call)
    ensures PoolInv(After(x, Call), k) && Refines(x, Call)
  {
    CallCalm(x.pool, x.base.batch[0]);
    assert [x.base.batch[0]] + x.base.batch[1..] == [] + x.base.batch;
  }

  predicate OfLoop(d: Label) { d.EpollWait? || d.SweepTimers? || d.HangUp? }

  lemma OutsideKeeps(s: State, d: Label)
    requires Shape(s) && Enabled(s, d) && !d.AddTask? && !d.Take?
    ensures var s' := Apply(s, d);
      && s'.ring == s.ring && s'.timerUnit == s.timerUnit
      && if OfLoop(d) then s'.workers == s.workers
         else
           && s'.batch == s.batch && d.w < |s.workers| == |s'.workers|
           && s'.workers == s.workers[d.w := s'.workers[d.w]]
  {
    hide KillTables, AcceptTables, GreetTables, HandleTimers;
  }

  lemma OutsideStep(x: Whole, d: Label, k: nat)
    requires PoolInv(x, k) && Shape(View(x)) && CanStep(x, Outside(d))
    ensures PoolInv(After(x, Outside(d)), k) && Refines(x, Outside(d))
  {
    hide FR.Calm, F.Shape, Shape, Enabled, Apply;
    var s, s' := View(x), Apply(View(x), d);
    OutsideKeeps(s, d);
    if LoopOutside(x.pool) {
      assert [] + s'.batch == s'.batch;
    }
    assert View(After(x, Outside(d))) == s';
  }

  /** A calm worker that moves the front carries out the ring's drop, and the task is the oldest. */
  lemma WorkerDrops(p: F.State, w: nat)
    requires FR.Calm(p) && F.Enabled(p, F.WorkerStep(w, None)) && p.workers[w].WMoveFront?
    ensures F.Apply(p, F.WorkerStep(w, None)).ring == p.ring.Drop() && !p.ring.Empty()
    ensures p.workers[w].task == p.ring.slots[p.ring.front]
  {
    assert FR.WorkerUpToDate(p.ring, p.workers[w]);
  }

  lemma TodoKept(s: F.State, p: nat, wake: Option<nat>)
    requires F.Shape(s) && F.Enabled(s, F.ProducerStep(p, wake)) && s.producers[p].at != F.PStoreTask
    ensures var s' := F.ProducerApply(s, p, wake);
      && |s'.producers| == |s.producers|
      && (forall q | 0 <= q < |s.producers| :: s'.producers[q].todo == s.producers[q].todo)
  {
  }

  /** Neither the store nor the move of the front: the dispatcher sees nothing of the step. */
  lemma HiddenStep(x: Whole, l: F.Label, k: nat)
    requires PoolInv(x, k) && FR.Holds(x.pool, k) && Shape(View(x)) && CanStep(x, Pool(l))
    requires LabelOf(x, Pool(l)) == None
    ensures var p' := F.Apply(x.pool, l);
      p'.ring == x.pool.ring && |p'.producers| == 1 && p'.producers[0].todo == x.pool.producers[0].todo
  {
    hide FR.Calm, FR.Simulated, F.ProducerApply, F.WorkerApply, Shape, Enabled;
    match l
    case ProducerStep(p, wake) =>
      TodoKept(x.pool, p, wake);
      FR.ProducerSimulated(x.pool, p, wake);
    case WorkerStep(w, wake) => FR.WorkerSimulated(x.pool, w, wake);
    case _ =>
  }

  /** The store is the dispatcher's add, the move of the front its take. */
  lemma ShownStep(x: Whole, l: F.Label, k: nat)
    requires PoolInv(x, k) && FR.Holds(x.pool, k) && Shape(View(x)) && CanStep(x, Pool(l))
    requires LabelOf(x, Pool(l)).Some? && FR.Holds(F.Apply(x.pool, l), k)
    ensures OneProducer(After(x, Pool(l)).pool) && |After(x, Pool(l)).pool.producers[0].todo| <= 1
    ensures After(x, Pool(l)).pool.producers[0].todo <= x.pool.producers[0].todo
    ensures Refines(x, Pool(l))
  {
    hide F.LocksHeld, F.ReadyInv, M.Inv;
    F.StepShape(x.pool, l);
    if l.ProducerStep? {
      FR.StoreSimulated(x.pool, l.p);
      assert FR.Abs(F.Apply(x.pool, l)).ring == x.pool.ring.Store(x.pool.producers[0].todo[0]);
      assert [] + x.base.batch == x.base.batch;
      assert View(x).batch[0] == x.pool.producers[0].todo[0] && View(x).batch[1..] == x.base.batch;
    } else {
      assert InStep(x.pool.workers[l.w], x.base.workers[l.w]);
      WorkerDrops(x.pool, l.w);
      assert F.Apply(x.pool, l).producers == x.pool.producers;
    }
  }

  /** A worker's own steps keep it in step with its handler. */
  lemma WorkerInStep(x: Whole, w: nat, wake: Option<nat>, k: nat)
    requires PoolInv(x, k) && Shape(View(x)) && CanStep(x, Pool(F.WorkerStep(w, wake)))
    ensures var p' := F.Apply(x.pool, F.WorkerStep(w, wake));
      && |p'.workers| == |x.pool.workers| && w < |p'.workers|
      && p'.workers == x.pool.workers[w := p'.workers[w]]
      && InStep(p'.workers[w], HandlersAfter(x, F.WorkerStep(w, wake))[w])
  {
    hide F.LocksHeld, F.ReadyInv, M.Inv;
    assert InStep(x.pool.workers[w], x.base.workers[w]);
    assert FR.WorkerUpToDate(x.pool.ring, x.pool.workers[w]);
    F.WorkerMovesItself(x.pool, w, wake);
  }

  lemma PoolInStep(x: Whole, l: F.Label, k: nat)
    requires PoolInv(x, k) && Shape(View(x)) && CanStep(x, Pool(l))
    ensures var x' := After(x, Pool(l));
      && |x'.base.workers| == |x'.pool.workers|
      && (forall w | 0 <= w < |x'.pool.workers| :: InStep(x'.pool.workers[w], x'.base.workers[w]))
  {
    hide FR.Calm, F.WorkerApply, F.ProducerApply;
    F.StepShape(x.pool, l);
    match l
    case ProducerStep(p, wake) => F.PendingStep(x.pool, p, wake);
    case WorkerStep(w, wake) => WorkerInStep(x, w, wake, k);
    case _ =>
  }

  lemma PoolStep(x: Whole, l: F.Label, k: nat)
    requires PoolInv(x, k) && FR.Holds(x.pool, k) && Shape(View(x)) && CanStep(x, Pool(l))
    requires FR.Holds(F.Apply(x.pool, l), k)
    ensures PoolInv(After(x, Pool(l)), k) && Refines(x, Pool(l))
  {
    hide F.ProducerApply, F.WorkerApply, FR.Calm, Shape, Enabled, Apply;
    F.StepShape(x.pool, l);
    FR.StepSimulated(x.pool, k, l);
    PoolInStep(x, l, k);
    if LabelOf(x, Pool(l)).Some? {
      ShownStep(x, l, k);
    } else {
      HiddenStep(x, l, k);
    }
  }

  /** What happens outside the pool is quiet. */
  ghost predicate QuietWhole(x: Whole, st: Step)
    requires OneProducer(x.pool) && F.Shape(x.pool) && Shape(View(x)) && CanStep(x, st)
  {
    st.Outside? ==> Quiet(View(x), st.d)
  }

  lemma PoolOrCallRefines(x: Whole, st: Step, k: nat)
    requires WholeInv(x, k) && CanStep(x, st) && FR.Holds(x.pool, k) && FR.Holds(After(x, st).pool, k)
    ensures PoolInv(After(x, st), k) && Refines(x, st)
  {
    hide TablesOk, HandlerOk, TokenAt, RelayInv, FR.Calm, Enabled, Apply;
    match st
    case Call => CallStep(x, k);
    case Outside(d) => OutsideStep(x, d, k);
    case Pool(l) => PoolStep(x, l, k);
  }

  /** Every step of the whole is a quiet step of the dispatcher over an atomic queue, or none. */
  lemma StepRefines(x: Whole, st: Step, k: nat)
    requires WholeInv(x, k) && CanStep(x, st) && QuietWhole(x, st)
    requires FR.Holds(x.pool, k) && FR.Holds(After(x, st).pool, k)
    ensures PoolInv(After(x, st), k) && Refines(x, st)
    ensures LabelOf(x, st).Some? ==> Quiet(View(x), LabelOf(x, st).value)
    ensures SlabInv(View(After(x, st))) && TokenInv(View(After(x, st))) && RelayInv(View(After(x, st)))
  {
    hide FR.Calm, TablesOk, HandlerOk, TokenInv, RelayInv, Apply, Enabled, CanStep, After, View;
    PoolOrCallRefines(x, st, k);
    if LabelOf(x, st).Some? {
      var l := LabelOf(x, st).value;
      QuietExactly(View(x), l);
      StepFlows(View(x), l);
    }
  }

  // ----- whole runs -----

  /** A run of the whole server, quiet outside the pool, with never more than k tasks in the ring. */
  ghost predicate WholeRun(x: Whole, sts: seq<Step>, k: nat)
    decreases |sts|
  {
    && OneProducer(x.pool) && F.Shape(x.pool) && Shape(View(x)) && FR.Holds(x.pool, k)
    && (sts != [] ==> CanStep(x, sts[0]) && QuietWhole(x, sts[0]) && WholeRun(After(x, sts[0]), sts[1..], k))
  }

  ghost function WholeExec(x: Whole, sts: seq<Step>, k: nat): Whole
    requires WholeRun(x, sts, k)
    decreases |sts|
  {
    if sts == [] then x else WholeExec(After(x, sts[0]), sts[1..], k)
  }

  ghost predicate WholeInit(x: Whole) {
    LoopOutside(x.pool) && F.Init(x.pool) && Init(View(x)) && |x.base.workers| == |x.pool.workers|
  }

  lemma WholeInitInv(x: Whole, k: nat)
    requires WholeInit(x) && k <= x.pool.ring.Size() - 2
    requires FR.Safe(x.pool.ring.Size(), |x.pool.workers|, k)
    ensures WholeInv(x, k)
  {
    FR.InitCalm(x.pool);
    InitInv(View(x));
  }

  lemma {:induction false} RunRefines(x: Whole, sts: seq<Step>, k: nat) returns (ls: seq<Label>)
    requires WholeInv(x, k) && WholeRun(x, sts, k)
    ensures OneProducer(WholeExec(x, sts, k).pool)
    ensures CanRun(View(x), ls) && QuietRun(View(x), ls) && Exec(View(x), ls) == View(WholeExec(x, sts, k))
    decreases |sts|
  {
    hide PoolInv, SlabInv, TokenInv, RelayInv, Apply, Enabled, CanStep, After, View, KillSafe, ClosesArmed;
    if sts == [] {
      ls := [];
    } else {
      StepRefines(x, sts[0], k);
      var rest := RunRefines(After(x, sts[0]), sts[1..], k);
      match LabelOf(x, sts[0]) {
        case None => ls := rest;
        case Some(l) =>
          ls := [l] + rest;
          assert ([l] + rest)[1..] == rest;
      }
    }
  }

  /** As long as the ring never holds more than k tasks, with k <= size - 2 and one worker, or k <= 1, every
      run of the dispatcher over the pool as written, quiet outside the pool, is a quiet run of the
      dispatcher over an atomic queue: every event added is taken once, in order, and relaying and the
      one-shot tokens are as proved of that. */
  lemma {:induction false} WholeRefines(x: Whole, sts: seq<Step>, k: nat) returns (ls: seq<Label>)
    requires WholeInit(x) && WholeRun(x, sts, k) && k <= x.pool.ring.Size() - 2
    requires FR.Safe(x.pool.ring.Size(), |x.pool.workers|, k)
    ensures OneProducer(WholeExec(x, sts, k).pool)
    ensures Init(View(x)) && CanRun(View(x), ls) && QuietRun(View(x), ls)
    ensures Exec(View(x), ls) == View(WholeExec(x, sts, k))
  {
    WholeInitInv(x, k);
    ls := RunRefines(x, sts, k);
  }
}
