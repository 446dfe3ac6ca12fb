/** What a client's first message leads to: the step that reads it, and everything a connection is told
    from its accept on. */
module Conversations {
  import opened Wrappers
  import opened Handshake
  import opened Server
  import opened Dispatcher
  import opened Tokens
  import opened ServerRuns
  import opened Stories

  // ----- the greeting -----

  /** Connection f is open and has not greeted. */
  predicate Ungreeted(s: State, f: int) {
    f in s.kernel.open && s.kernel.open[f] == Socket && 0 <= f < |s.log| && s.log[f] == Stream(None, "", "<rembash>\n")
  }

  lemma StartedIsNew(s: State, w: nat)
    requires SlabInv(s) && StartedOn(s, w, New)
    ensures var f := s.workers[w].fd;
      && 0 < f < Max(s) && s.slabs.slot[f] == f && s.slabs.clients[f] == Client(f, -1, New)
      && CopyOf(s.slabs, f) == s.slabs.clients[f]
      && (f in s.kernel.open && s.kernel.open[f] == Socket ==> Ungreeted(s, f))
  {
    var f := s.workers[w].fd;
    assert Paired(s.kernel, s.slabs, f);
    CopyIsOwnSlot(s.kernel, s.slabs, s.log, f);
    if f in s.kernel.open {
      assert Owned(s.kernel, s.slabs, s.log, f);
    }
  }

  /** The client becomes established if and only if its message is the secret, alone or followed by a NUL
      and anything. Then it gets the PTY, both are armed, and it is answered "<ok>"; otherwise it is closed,
      the slabs stay as they are, and it is answered "<error>", or nothing if the read failed. Nobody
      else is told anything. */
  lemma GreetExactly(s: State, w: nat, message: Option<string>, pty: int)
    requires SlabInv(s) && Enabled(s, Greet(w, message, pty))
    ensures var f, s' := s.workers[w].fd, Apply(s, Greet(w, message, pty));
      && 0 < f < Max(s) && |s'.slabs.clients| == |s'.log| == Max(s)
      && (s'.slabs.clients[f].state == Established <==> GivesSecret(message))
      && (GivesSecret(message) ==>
            && s'.slabs.clients == s.slabs.clients[f := Client(f, pty, Established)]
            && s'.slabs.slot == s.slabs.slot[f := f][pty := f]
            && s'.kernel.open == s.kernel.open[pty := Pty] && pty in s'.kernel.armed
            && (f in s.kernel.reg ==> f in s'.kernel.armed)
            && s'.log[f] == Stream(message, "", "<rembash>\n<ok>\n") && s'.log[pty] == Stream(None, "", ""))
      && (!GivesSecret(message) ==>
            && s'.slabs == s.slabs && s'.kernel.open == s.kernel.open - {f} && f !in s'.kernel.reg
            && (Ungreeted(s, f) ==>
                  s'.log[f] == Stream(None, "", if message.Some? then "<rembash>\n<error>\n" else "<rembash>\n")))
      && (forall g | 0 <= g < Max(s) && g != f && !(GivesSecret(message) && g == pty) :: s'.log[g] == s.log[g])
  {
    StartedIsNew(s, w);
    if message.Some? {
      AcceptsExactly(message.value);
    }
    if GivesSecret(message) {
      GreetAccepted(s, w, message, pty);
    } else {
      GreetRefused(s, w, message, pty);
    }
  }

  lemma GreetAccepted(s: State, w: nat, message: Option<string>, pty: int)
    requires SlabInv(s) && Enabled(s, Greet(w, message, pty)) && Accepts(message)
    ensures var f, s' := s.workers[w].fd, Apply(s, Greet(w, message, pty));
      && 0 < f < Max(s) && |s'.log| == Max(s)
      && s'.slabs.clients == s.slabs.clients[f := Client(f, pty, Established)]
      && s'.slabs.slot == s.slabs.slot[f := f][pty := f]
      && s'.kernel.open == s.kernel.open[pty := Pty] && pty in s'.kernel.armed
      && (f in s.kernel.reg ==> f in s'.kernel.armed)
      && s'.log[f] == Stream(message, "", "<rembash>\n<ok>\n") && s'.log[pty] == Stream(None, "", "")
      && (forall g | 0 <= g < Max(s) && g != f && g != pty :: s'.log[g] == s.log[g])
  {
    hide TablesOk, HandlerOk;
    StartedIsNew(s, w);
    assert REMBASH + OK == "<rembash>\n<ok>\n";
  }

  lemma GreetRefused(s: State, w: nat, message: Option<string>, pty: int)
    requires SlabInv(s) && Enabled(s, Greet(w, message, pty)) && !Accepts(message)
    ensures var f, s' := s.workers[w].fd, Apply(s, Greet(w, message, pty));
      && 0 < f < Max(s) && |s'.log| == Max(s)
      && s'.slabs == s.slabs && s'.kernel.open == s.kernel.open - {f} && f !in s'.kernel.reg
      && (Ungreeted(s, f) ==>
            s'.log[f] == Stream(None, "", if message.Some? then "<rembash>\n<error>\n" else "<rembash>\n"))
      && (forall g | 0 <= g < Max(s) && g != f :: s'.log[g] == s.log[g])
  {
    hide TablesOk, HandlerOk;
    StartedIsNew(s, w);
    var f := s.workers[w].fd;
    assert s.slabs.clients[f := s.slabs.clients[f]] == s.slabs.clients;
    assert s.slabs.slot[f := f] == s.slabs.slot;
    assert REMBASH + ERROR == "<rembash>\n<error>\n" && REMBASH + "" == "<rembash>\n";
  }

  // ----- everything a connection is told -----

  /** The step gives number f to something new. */
  predicate Reopens(l: Label, f: int) { Connects(l, f) || (l.Accept? && l.timer == f) }

  ghost predicate NotReopened(ls: seq<Label>, f: int) {
    forall i | 0 <= i < |ls| :: !Reopens(ls[i], f)
  }

  ghost predicate NotReopenedAfter(ls: seq<Label>, i: int, f: int) {
    forall n | 0 <= n < |ls| && i < n :: !Reopens(ls[n], f)
  }

  /** The first message read from the connection f, if any; a failed read is no message. */
  ghost function FirstHello(s: State, ls: seq<Label>, f: int): Option<Option<string>>
    requires CanRun(s, ls)
    decreases |ls|
  {
    if ls == [] then None
    else if Hears(s, ls[0], f) then Some(ls[0].message)
    else FirstHello(Apply(s, ls[0]), ls[1..], f)
  }

  /** What connection f has been told, and whether it is still there, by its first message. */
  ghost predicate Told(s: State, f: int, first: Option<Option<string>>) {
    0 < f < |s.log| && f < |s.slabs.clients| &&
    match first
    case None =>
      && s.log[f] == Stream(None, "", "<rembash>\n")
      && (f in s.kernel.open ==> s.kernel.open[f] == Socket && s.slabs.clients[f].state == New)
    case Some(message) =>
      if GivesSecret(message) then
        && s.log[f].hello == message && "<rembash>\n<ok>\n" <= s.log[f].output
        && (f in s.kernel.open ==> s.kernel.open[f] == Socket && s.slabs.clients[f].state == Established)
      else
        && s.log[f] == Stream(None, "", if message.Some? then "<rembash>\n<error>\n" else "<rembash>\n")
        && f !in s.kernel.open
  }

  lemma OnlyReopened(s: State, l: Label, f: int)
    requires SlabInv(s) && Enabled(s, l) && !Reopens(l, f)
    ensures var k, k' := s.kernel, Apply(s, l).kernel; f in k'.open ==> f in k.open && k'.open[f] == k.open[f]
  {
    hide HandlerOk;
    match l
    case SweepTimers(due) =>
      DueTimers(s, due);
      HandleTimersOnlyCloses(s.kernel, s.slabs, s.log, due);
    case HangUp =>
    case Greet(w, message, pty) => GreetExactly(s, w, message, pty);
    case Accept(_, _, _) =>
    case _ => OthersKeepTables(s, l);
  }

  /** An open connection's state changes only by its own greeting. */
  lemma StateKept(s: State, l: Label, f: int)
    requires SlabInv(s) && Enabled(s, l) && !Reopens(l, f) && !Hears(s, l, f)
    requires f in s.kernel.open && s.kernel.open[f] == Socket && f in Apply(s, l).kernel.open
    ensures f < |Apply(s, l).slabs.clients| == Max(s)
    ensures Apply(s, l).slabs.clients[f].state == s.slabs.clients[f].state
  {
    hide HandlerOk;
    match l
    case SweepTimers(due) =>
    case HangUp =>
    case Greet(w, message, pty) =>
      StartedIsNew(s, w);
      GreetExactly(s, w, message, pty);
    case Accept(_, _, _) =>
    case _ => OthersKeepTables(s, l);
  }

  /** Relaying through f is for an established client whose descriptors are open. */
  lemma RelayIsEstablished(s: State, l: Label, f: int)
    requires SlabInv(s) && Enabled(s, l)
    ensures (l.Read? && s.workers[l.w].fd == f) || (l.Write? && s.workers[l.w].to == f) ==>
      && 0 < f < Max(s) && f in s.kernel.open
      && (s.kernel.open[f] == Socket ==> s.slabs.clients[f].state == Established)
  {
    if l.Read? && s.workers[l.w].fd == f {
      assert Paired(s.kernel, s.slabs, f);
      CopyIsOwnSlot(s.kernel, s.slabs, s.log, f);
    } else if l.Write? && s.workers[l.w].to == f {
      assert HandlerOk(s.slabs, s.workers[l.w]);
      assert Paired(s.kernel, s.slabs, s.workers[l.w].copy.sock);
    }
  }

  lemma StepStaysTold(s: State, l: Label, f: int, first: Option<Option<string>>)
    requires SlabInv(s) && Enabled(s, l) && !Reopens(l, f) && Told(s, f, first) && !Hears(s, l, f)
    ensures Told(Apply(s, l), f, first)
  {
    hide TablesOk, HandlerOk, Apply, Enabled;
    StepTold(s, l, f);
    StepShape(s, l);
    StepKeepsSizes(s, l);
    OnlyReopened(s, l, f);
    RelayIsEstablished(s, l, f);
    if f in s.kernel.open && f in Apply(s, l).kernel.open {
      StateKept(s, l, f);
    }
  }

  lemma StepHears(s: State, l: Label, f: int, first: Option<Option<string>>)
    requires SlabInv(s) && Enabled(s, l) && !Reopens(l, f) && Told(s, f, first) && Hears(s, l, f)
    ensures first == None && Told(Apply(s, l), f, Some(l.message))
  {
    hide TablesOk, HandlerOk, Apply;
    StartedIsNew(s, l.w);
    GreetExactly(s, l.w, l.message, l.pty);
  }

  lemma {:induction false} RunTold(s: State, ls: seq<Label>, f: int, first: Option<Option<string>>)
    requires SlabInv(s) && CanRun(s, ls) && KillSafeRun(s, ls) && NotReopened(ls, f) && Told(s, f, first)
    ensures Told(Exec(s, ls), f, if first.Some? then first else FirstHello(s, ls, f))
    decreases |ls|
  {
    hide SlabInv, Apply, Enabled, KillSafe, Told, Reopens;
    if ls != [] {
      StepSlabs(s, ls[0]);
      assert forall i | 0 <= i < |ls[1..]| :: ls[1..][i] == ls[i + 1];
      if Hears(s, ls[0], f) {
        StepHears(s, ls[0], f, first);
        RunTold(Apply(s, ls[0]), ls[1..], f, Some(ls[0].message));
      } else {
        StepStaysTold(s, ls[0], f, first);
        RunTold(Apply(s, ls[0]), ls[1..], f, first);
      }
    }
  }

  lemma AcceptedIsTold(s: State, w: nat, f: int, m: int)
    requires SlabInv(s) && Enabled(s, Accept(w, f, m))
    ensures var s' := Apply(s, Accept(w, f, m)); SlabInv(s') && Told(s', f, None)
  {
    AcceptSlabs(s, w, f, m);
  }

  /** In a kill-safe run, from its accept until its number is given to something new, connection f has been
      told: the greeting only, as long as nothing was read from it; the greeting and "<ok>" before anything
      else, if its first message gave the secret; the greeting and "<error>" and nothing else, or the
      greeting only if the read failed, and it is closed, if not. */
  lemma {:induction false} ToldExactly(
    s0: State, before: seq<Label>, w: nat, f: int, m: int, after: seq<Label>)
    requires Init(s0) && CanRun(s0, before) && KillSafeRun(s0, before) && Enabled(Exec(s0, before), Accept(w, f, m))
    requires var s1 := Apply(Exec(s0, before), Accept(w, f, m));
      CanRun(s1, after) && KillSafeRun(s1, after) && NotReopened(after, f)
    ensures var s1 := Apply(Exec(s0, before), Accept(w, f, m));
      Told(Exec(s1, after), f, FirstHello(s1, after, f))
  {
    hide TablesOk, HandlerOk, Told, Apply, Enabled, FirstHello, NotReopened;
    var s := Exec(s0, before);
    InitSlabs(s0);
    RunSlabs(s0, before);
    AcceptedIsTold(s, w, f, m);
    RunTold(Apply(s, Accept(w, f, m)), after, f, None);
  }

  // ----- every established client said the secret -----

  lemma {:induction false} RunSplit(s: State, ls: seq<Label>, i: nat)
    requires CanRun(s, ls) && KillSafeRun(s, ls) && i <= |ls|
    ensures CanRun(s, ls[..i]) && KillSafeRun(s, ls[..i])
    ensures var s1 := Exec(s, ls[..i]);
      CanRun(s1, ls[i..]) && KillSafeRun(s1, ls[i..]) && Exec(s1, ls[i..]) == Exec(s, ls)
    decreases i
  {
    hide Apply, Enabled, Shape, KillSafe;
    if i == 0 {
      assert ls[..0] == [] && ls[0..] == ls;
    } else {
      RunSplit(Apply(s, ls[0]), ls[1..], i - 1);
      assert ls[..i][1..] == ls[1..][..i - 1] && ls[i..] == ls[1..][i - 1..];
    }
  }

  /** The step that last opened the connection f, or -1 if it was open before. */
  lemma {:induction false} LastAccept(s: State, ls: seq<Label>, f: int) returns (i: int)
    requires SlabInv(s) && CanRun(s, ls) && KillSafeRun(s, ls)
    requires var k := Exec(s, ls).kernel; f in k.open && k.open[f] == Socket
    ensures -1 <= i < |ls| && NotReopenedAfter(ls, i, f)
    ensures if i == -1 then f in s.kernel.open && s.kernel.open[f] == Socket else ls[i].Accept? && ls[i].fd == f
    decreases |ls|
  {
    hide SlabInv, Enabled, Apply, KillSafe, Reopens;
    if ls == [] {
      i := -1;
    } else {
      StepSlabs(s, ls[0]);
      var j := LastAccept(Apply(s, ls[0]), ls[1..], f);
      i := if j >= 0 || Reopens(ls[0], f) then j + 1 else -1;
      if j == -1 {
        OpenedAs(s, ls[0], f);
      }
      assert forall n | 0 < n < |ls| :: ls[n] == ls[1..][n - 1];
    }
  }

  lemma OpenedAs(s: State, l: Label, f: int)
    requires SlabInv(s) && Enabled(s, l)
    requires var k := Apply(s, l).kernel; f in k.open && k.open[f] == Socket
    ensures if Reopens(l, f) then l.Accept? && l.fd == f else f in s.kernel.open && s.kernel.open[f] == Socket
  {
    if !Reopens(l, f) {
      OnlyReopened(s, l, f);
    } else if l.Greet? {
      GreetExactly(s, l.w, l.message, l.pty);
    }
  }

  /** A run up to a step, the step, and the run after it. */
  lemma RunAround(s: State, ls: seq<Label>, i: nat)
    requires CanRun(s, ls) && KillSafeRun(s, ls) && i < |ls|
    ensures CanRun(s, ls[..i]) && KillSafeRun(s, ls[..i]) && Enabled(Exec(s, ls[..i]), ls[i])
    ensures CanRun(s, ls[..i + 1]) && Exec(s, ls[..i + 1]) == Apply(Exec(s, ls[..i]), ls[i])
    ensures var s1 := Exec(s, ls[..i + 1]);
      CanRun(s1, ls[i + 1..]) && KillSafeRun(s1, ls[i + 1..]) && Exec(s1, ls[i + 1..]) == Exec(s, ls)
  {
    hide Apply, Enabled, Shape, KillSafe;
    RunSplit(s, ls, i);
    var before, rest := ls[..i], ls[i..];
    assert rest[0] == ls[i] && rest[1..] == ls[i + 1..];
    RunStep(s, before, ls[i]);
    assert before + [ls[i]] == ls[..i + 1];
  }

  lemma TailNotReopened(ls: seq<Label>, i: int, f: int)
    requires NotReopenedAfter(ls, i, f) && 0 <= i < |ls|
    ensures NotReopened(ls[i + 1..], f)
  {
  }

  lemma InitOpen(s0: State, f: int)
    requires Init(s0)
    ensures f in s0.kernel.open ==> s0.kernel.open[f] == Fixed
  {
  }

  /** In a kill-safe run every connection that is established at the end has, since the step that accepted
      it, a greeting of its own whose message is the secret, alone or followed by a NUL and anything. */
  lemma {:induction false} EstablishedGaveSecret(s0: State, ls: seq<Label>, f: int) returns (i: nat)
    requires Init(s0) && CanRun(s0, ls) && KillSafeRun(s0, ls)
    requires var s := Exec(s0, ls);
      f in s.kernel.open && s.kernel.open[f] == Socket && 0 <= f < Max(s) && s.slabs.clients[f].state == Established
    ensures i < |ls| && ls[i].Accept? && ls[i].fd == f && NotReopenedAfter(ls, i, f) && CanRun(s0, ls[..i + 1])
    ensures var s1, after := Exec(s0, ls[..i + 1]), ls[i + 1..];
      CanRun(s1, after) && FirstHello(s1, after, f).Some? && GivesSecret(FirstHello(s1, after, f).value)
  {
    hide SlabInv, Apply, Enabled, KillSafe, FirstHello, NotReopened, NotReopenedAfter;
    InitSlabs(s0);
    InitOpen(s0, f);
    i := LastAccept(s0, ls, f);
    RunAround(s0, ls, i);
    TailNotReopened(ls, i, f);
    ToldExactly(s0, ls[..i], ls[i].w, f, ls[i].timer, ls[i + 1..]);
  }

  // ----- one relay task -----

  /** A write marks the slot it relays for as established, whoever has it by then. */
  lemma WriteEstablishes(s: State, w: nat)
    requires Shape(s) && Enabled(s, Write(w))
    ensures var h, s' := s.workers[w], Apply(s, Write(w));
      && s'.slabs == s.slabs.(clients := s.slabs.clients[h.at := s.slabs.clients[h.at].(state := Established)])
      && s'.log == s.log[h.to := s.log[h.to].(output := s.log[h.to].output + h.chunk)]
      && s'.kernel == s.kernel && s'.batch == s.batch && s'.ring == s.ring
  {
  }

  /** A relay task that nothing disturbs moves one chunk from f to its peer, arms f again, and leaves the
      slabs, the queues and everybody else as they were. */
  lemma RelayTask(s: State, w: nat, chunk: string) returns (s': State)
    requires SlabInv(s) && Enabled(s, Read(w, chunk)) && s.workers[w].fd in s.kernel.reg
    ensures Reach(s, s') && Is(s', w, Idle)
    ensures var f := s.workers[w].fd; var p := PeerOf(s.slabs, f);
      && s'.kernel == s.kernel.(armed := s.kernel.armed + {f})
      && s'.slabs == s.slabs && s'.batch == s.batch && s'.ring == s.ring && s'.workers == s.workers[w := Idle]
      && p != f && |s'.log| == |s.log|
      && s'.log[f] == s.log[f].(input := s.log[f].input + chunk)
      && s'.log[p] == s.log[p].(output := s.log[p].output + chunk)
      && (forall g | 0 <= g < |s.log| && g != f && g != p :: s'.log[g] == s.log[g])
  {
    hide Reach, TablesOk, HandlerOk;
    var f := s.workers[w].fd;
    ReadSlabs(s, w, chunk);
    PeerIsOther(s, f);
    ReachSelf(s);
    var s1 := Then(s, s, Read(w, chunk));
    WriteSlabs(s1, w);
    var s2 := Then(s, s1, Write(w));
    RearmSlabs(s2, w);
    var s3 := Then(s, s2, Rearm(w));
    StoreBackSlabs(s3, w);
    s' := Then(s, s3, StoreBack(w));
    assert s'.workers == s.workers[w := Idle];
  }

  lemma PeerIsOther(s: State, f: int)
    requires SlabInv(s) && 0 <= f < |s.slabs.slot| && Known(s.slabs, f) && CopyOf(s.slabs, f).state == Established
    ensures PeerOf(s.slabs, f) != f
  {
    assert Paired(s.kernel, s.slabs, f);
  }
}
