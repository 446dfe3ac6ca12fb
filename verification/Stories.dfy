/** What the steps of a run say went through a descriptor since it was last opened, told from the labels
    alone: the message a client sent, the chunks that were read, the replies it is owed. */
module Stories {
  import opened Wrappers
  import opened Handshake
  import opened Server
  import opened Dispatcher
  import opened ServerRuns

  /** The step opens number f, as a connection or as a PTY. */
  predicate Connects(l: Label, f: int) {
    (l.Accept? && l.fd == f) || (l.Greet? && GivesSecret(l.message) && l.pty == f)
  }

  /** The step reads the first message of the connection f. */
  ghost predicate Hears(s: State, l: Label, f: int)
    requires Shape(s) && Enabled(s, l)
  {
    l.Greet? && CopyOf(s.slabs, s.workers[l.w].fd).sock == f && f in s.kernel.open && s.kernel.open[f] == Socket
  }

  /** What the server answers to a first message: nothing if the read failed. */
  function Answer(message: Option<string>): string {
    if GivesSecret(message) then "<ok>\n" else if message.Some? then "<error>\n" else ""
  }

  ghost function StoryStep(s: State, l: Label, f: int, told: Stream): Stream
    requires Shape(s) && Enabled(s, l)
  {
    if Connects(l, f) then
      Stream(None, "", if l.Accept? then "<rembash>\n" else "")
    else if Hears(s, l, f) then
      told.(hello := if GivesSecret(l.message) then l.message else told.hello,
            output := told.output + Answer(l.message))
    else if l.Read? && s.workers[l.w].fd == f then
      told.(input := told.input + l.chunk)
    else if l.Write? && s.workers[l.w].to == f then
      told.(output := told.output + s.workers[l.w].chunk)
    else
      told
  }

  ghost function StoryFrom(s: State, ls: seq<Label>, f: int, told: Stream): Stream
    requires CanRun(s, ls)
    decreases |ls|
  {
    if ls == [] then told else StoryFrom(Apply(s, ls[0]), ls[1..], f, StoryStep(s, ls[0], f, told))
  }

  /** The story of f over a run from the start. */
  ghost function Story(s0: State, ls: seq<Label>, f: int): Stream
    requires CanRun(s0, ls)
  {
    StoryFrom(s0, ls, f, Stream(None, "", ""))
  }

  lemma GreetTold(s: State, l: Label, f: int)
    requires Shape(s) && Enabled(s, l) && l.Greet? && 0 <= f < Max(s)
    ensures 0 <= f < |GreetStep(s, l.w, l.message, l.pty).log|
    ensures GreetStep(s, l.w, l.message, l.pty).log[f] == StoryStep(s, l, f, s.log[f])
  {
    if l.message.Some? {
      AcceptsExactly(l.message.value);
    }
  }

  /** The log keeps what the labels tell. */
  lemma StepTold(s: State, l: Label, f: int)
    requires Shape(s) && Enabled(s, l) && 0 <= f < Max(s)
    ensures 0 <= f < |Apply(s, l).log| && Apply(s, l).log[f] == StoryStep(s, l, f, s.log[f])
  {
    hide KillTables, HandleTimers, GreetTables, GreetLog;
    if l.Greet? {
      GreetTold(s, l, f);
    }
  }

  lemma {:induction false} LogFrom(s: State, ls: seq<Label>, f: int)
    requires CanRun(s, ls) && 0 <= f < Max(s)
    ensures 0 <= f < |Exec(s, ls).log| && Exec(s, ls).log[f] == StoryFrom(s, ls, f, s.log[f])
    decreases |ls|
  {
    hide Apply, Enabled, StoryStep;
    if ls != [] {
      StepTold(s, ls[0], f);
      StepKeepsSizes(s, ls[0]);
      LogFrom(Apply(s, ls[0]), ls[1..], f);
    }
  }

  /** In every run, hang-ups at any time: the log of each descriptor is the story its labels tell. */
  lemma LogIsStory(s0: State, ls: seq<Label>, f: int)
    requires Init(s0) && CanRun(s0, ls) && 0 <= f < Max(s0)
    ensures 0 <= f < |Exec(s0, ls).log| && Exec(s0, ls).log[f] == Story(s0, ls, f)
  {
    LogFrom(s0, ls, f);
  }
}
