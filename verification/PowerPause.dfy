/** An intentional pause ends once, by a click on it: with any number of callers racing on the latch there is
    one resume token while the actor is paused and none otherwise, so no resume is left for a later pause (bus.rs). */
module PowerPause {
  import opened Wrappers
  import opened Bus

  // ---- the resume token --------------------------------------------------

  function Resumes(q: seq<Command>): nat {
    if q == [] then 0 else (if q[0] == Resume then 1 else 0) + Resumes(q[1..])
  }

  lemma {:induction false} ResumesAppend(q: seq<Command>, c: Command)
    ensures Resumes(q + [c]) == Resumes(q) + if c == Resume then 1 else 0
  {
    if q == [] {
      assert ([c])[1..] == [];
    } else {
      assert (q + [c])[1..] == q[1..] + [c];
      ResumesAppend(q[1..], c);
    }
  }

  /** Latch, resumes between the swap and the send, and queued resumes. */
  function Tokens(s: State): nat {
    (if s.powerPaused then 1 else 0) + s.resumesInFlight + Resumes(s.commands)
  }

  /** Reader of (began accepted ended)*. */
  datatype Episode = Running | Stopping | Waking | Broken

  function Turn(w: Episode, e: IO): Episode {
    match e
    case PauseBegan => if w == Running then Stopping else Broken
    case ResumeAccepted => if w == Stopping then Waking else Broken
    case PauseEnded => if w == Waking then Running else Broken
    case _ => w
  }

  function Episodes(t: seq<IO>): Episode {
    if t == [] then Running else Turn(Episodes(t[..|t| - 1]), t[|t| - 1])
  }

  function Begun(t: seq<IO>): nat {
    if t == [] then 0 else Begun(t[..|t| - 1]) + if t[|t| - 1] == PauseBegan then 1 else 0
  }

  lemma Extend(t: seq<IO>, e: IO)
    ensures Episodes(t + [e]) == Turn(Episodes(t), e)
    ensures Begun(t + [e]) == Begun(t) + if e == PauseBegan then 1 else 0
  {
    assert (t + [e])[..|t|] == t;
  }

  ghost predicate TokenInv(s: State) {
    && Episodes(s.trace) != Broken
    && (s.phase != Stopped ==>
          && Tokens(s) == (if s.paused then 1 else 0)
          && (Episodes(s.trace) == Running <==> !s.paused)
          && (Episodes(s.trace) == Waking <==> Resumes(s.commands) > 0)
          && (s.paused ==> s.phase == Closing || s.phase == Announcing || s.phase == Paused)
          && (s.phase == Paused ==> s.paused))
  }

  lemma ResumesHead(q: seq<Command>)
    requires q != []
    ensures Resumes(q) == (if q[0] == Resume then 1 else 0) + Resumes(q[1..])
  {
  }

  /** A command that is no resume leaves the queue. */
  lemma PopKeeps(s: State, t: State)
    requires TokenInv(s) && s.commands != [] && s.commands[0] != Resume
    requires t == s.(commands := s.commands[1..], calls := t.calls, topics := t.topics)
    ensures TokenInv(t)
  {
    hide Episodes, Resumes;
    ResumesHead(s.commands);
  }

  /** In a pause the resume taken is its one token; elsewhere there is none to take. */
  lemma TakeResumeKeeps(s: State)
    requires TokenInv(s) && s.commands != [] && s.commands[0] == Resume && s.phase != Stopped
    ensures s.paused && s.phase in {Closing, Announcing, Paused}
    ensures s.phase == Paused ==> TokenInv(TakeOffline(s))
  {
    hide Episodes, AnswerAll, Answer, Resumes;
    ResumesHead(s.commands);
    Extend(s.trace, PauseEnded);
    Extend(s.trace + [PauseEnded], Dialed(s.socket + 1));
    assert s.trace + [PauseEnded, Dialed(s.socket + 1)] == s.trace + [PauseEnded] + [Dialed(s.socket + 1)];
  }

  lemma TakeOfflineKeeps(s: State)
    requires TokenInv(s) && s.commands != [] && (s.phase == Paused || s.phase == Dialing || s.phase == Backoff)
    ensures TokenInv(TakeOffline(s))
  {
    hide TokenInv, AnswerAll, Answer;
    match s.commands[0]
    case Resume => TakeResumeKeeps(s);
    case _ => PopKeeps(s, TakeOffline(s));
  }

  /** Leaving the connection moves nothing of the pause. */
  lemma TeardownKeeps(s: State)
    requires TokenInv(s) && Connection(s.phase)
    ensures TokenInv(Teardown(s))
  {
    hide Episodes, AnswerAll, Resumes;
  }

  lemma TakeLiveKeeps(s: State, expired: bool, ok: bool)
    requires TokenInv(s) && s.commands != [] && s.phase == Live
    ensures TokenInv(TakeLive(s, expired, ok))
  {
    hide Episodes, AnswerAll, Answer, Closed, Resumes, Teardown, TokenInv;
    match s.commands[0]
    case Resume => TakeResumeKeeps(s);
    case Topics(topics) =>
      var taken := s.(commands := s.commands[1..], topics := topics);
      PopKeeps(s, taken);
      TeardownKeeps(taken);
      SentTopicsKeeps(taken, topics);
    case Call(call) =>
      PopKeeps(s, s.(commands := s.commands[1..], calls := Answer(s.calls, call, NotSent)));
      WriteKeeps(s, call);
  }

  lemma SentTopicsKeeps(s: State, topics: set<string>)
    requires TokenInv(s)
    ensures TokenInv(s.(sentTopics := topics))
  {
    hide Episodes, Resumes;
  }

  lemma WriteKeeps(s: State, call: nat)
    requires TokenInv(s) && s.commands != [] && s.commands[0] == Call(call) && s.phase == Live
    ensures TokenInv(s.(commands := s.commands[1..], counter := s.counter + 1,
                        pending := s.pending[s.counter + 1 := call], phase := Sending,
                        trace := s.trace + [Wrote(s.socket, s.counter + 1, call)]))
  {
    hide Episodes, Resumes;
    ResumesHead(s.commands);
    Extend(s.trace, Wrote(s.socket, s.counter + 1, call));
  }

  lemma TakeFrameKeeps(s: State, frame: Frame, ok: bool)
    requires TokenInv(s) && s.phase == Live
    ensures TokenInv(TakeFrame(s, frame, ok))
  {
    hide Episodes, AnswerAll, Answer, Resumes;
    var read := s.trace + [Read(s.socket, frame)];
    Extend(s.trace, Read(s.socket, frame));
    Extend(read, PauseBegan);
    if frame.EventFrame? && frame.topic.Some? {
      Extend(read, Emitted(s.socket, Data(frame.topic.value, frame.data)));
    }
  }

  lemma SubmitKeeps(s: State, c: Command, trace: seq<IO>)
    requires TokenInv(s) && c != Resume && Episodes(trace) == Episodes(s.trace)
    ensures TokenInv(s.(commands := s.commands + [c], trace := trace))
  {
    ResumesAppend(s.commands, c);
  }

  lemma EnqueueResumeKeeps(s: State)
    requires TokenInv(s) && s.resumesInFlight > 0
    ensures TokenInv(Next(s, EnqueueResume))
  {
    hide Episodes;
    ResumesAppend(s.commands, Resume);
    Extend(s.trace, ResumeAccepted);
  }

  /** A step of a caller: nothing of the pause moves. */
  predicate IsCaller(step: Step) {
    step.Check? || step.Submit? || step.TimeOut? || step.Receive? || step.SubmitTopics?
  }

  lemma CallerKeeps(s: State, step: Step)
    requires TokenInv(s) && Enabled(s, step) && IsCaller(step)
    ensures TokenInv(Next(s, step))
  {
    hide Episodes, AnswerAll, DropAll, TakeOffline, TakeLive, TakeFrame, Resumes;
    match step
    case Check(call) => Extend(s.trace, Resolved(call, NotSent));
    case Submit(call) =>
      Extend(s.trace, Resolved(call, NotSent));
      SubmitKeeps(s, Call(call), s.trace);
    case TimeOut(call) => Extend(s.trace, Resolved(call, OutcomeUnknown));
    case Receive(call) =>
      var slot := s.calls[call].slot;
      Extend(s.trace, Resolved(call, if slot.Filled? then slot.verdict else OutcomeUnknown));
    case SubmitTopics(topics) => SubmitKeeps(s, Topics(topics), s.trace);
  }

  lemma StepKeeps(s: State, step: Step)
    requires TokenInv(s) && Enabled(s, step)
    ensures TokenInv(Next(s, step))
  {
    if IsCaller(step) {
      CallerKeeps(s, step);
    } else {
      ActorKeeps(s, step);
    }
  }

  lemma ActorKeeps(s: State, step: Step)
    requires TokenInv(s) && Enabled(s, step) && !IsCaller(step)
    ensures TokenInv(Next(s, step))
  {
    if step.EnqueueResume? {
      EnqueueResumeKeeps(s);
    } else if step.OfflineCommand? || step.LiveCommand? || step.ReadFrame? {
      hide TokenInv, TakeOffline, TakeLive, TakeFrame;
      match step
      case OfflineCommand => TakeOfflineKeeps(s);
      case LiveCommand(expired, ok) => TakeLiveKeeps(s, expired, ok);
      case ReadFrame(frame, ok) => TakeFrameKeeps(s, frame, ok);
    } else {
      PhaseKeeps(s, step);
    }
  }

  lemma PhaseKeeps(s: State, step: Step)
    requires TokenInv(s) && Enabled(s, step) && !IsCaller(step) && !step.EnqueueResume?
    requires !step.OfflineCommand? && !step.LiveCommand? && !step.ReadFrame?
    ensures TokenInv(Next(s, step))
  {
    hide Episodes, AnswerAll, DropAll, Resumes, Teardown, Halt, EndAnnounced, Redial, TokenInv;
    match step
    case SendDone(ok) => PhaseMoves(s, s.(phase := Live)); TeardownKeeps(s);
    case Heartbeat(ok) => TeardownKeeps(s);
    case FlushDone => TeardownKeeps(s);
    case GreetDone(ok) => GreetKeeps(s, ok);
    case Announce => AnnounceKeeps(s);
    case BackoffDone => RedialKeeps(s);
    case Stop => HaltKeeps(s);
    case _ => RestKeeps(s, step);
  }

  lemma PhaseMoves(s: State, t: State)
    requires TokenInv(s) && s.phase == Sending && t == s.(phase := Live)
    ensures TokenInv(t)
  {
    hide Episodes, Resumes;
  }

  lemma GreetKeeps(s: State, ok: bool)
    requires TokenInv(s) && s.phase == Greeting
    ensures TokenInv(Next(s, GreetDone(ok)))
  {
    hide Episodes, AnswerAll, Resumes, Teardown;
    if ok && |s.events| < EVENT_QUEUE { Extend(s.trace, Emitted(s.socket, Connected)); } else { TeardownKeeps(s); }
  }

  lemma AnnounceKeeps(s: State)
    requires TokenInv(s) && s.phase == Announcing
    ensures TokenInv(EndAnnounced(s))
  {
    hide Episodes, Resumes;
    Extend(s.trace, Emitted(s.socket, if s.paused then PowerPaused else Disconnected));
  }

  lemma RedialKeeps(s: State)
    requires TokenInv(s) && s.phase == Backoff
    ensures TokenInv(Redial(s))
  {
    hide Episodes, Resumes;
    Extend(s.trace, Dialed(s.socket + 1));
  }

  lemma HaltKeeps(s: State)
    requires TokenInv(s)
    ensures TokenInv(Halt(s))
  {
    hide Episodes, DropAll, Resumes;
  }

  lemma RestKeeps(s: State, step: Step)
    requires TokenInv(s) && Enabled(s, step)
    requires step.SwapLatch? || step.TakeEvent? || step.DialDone? || step.Sweep?
    ensures TokenInv(Next(s, step))
  {
    hide Episodes, DropAll, Resumes;
  }

  lemma {:induction false} RunKeeps(steps: seq<Step>)
    requires Exec(steps).Some?
    ensures TokenInv(Exec(steps).value)
  {
    if steps == [] {
      Extend([], Dialed(0));
      assert [] + [Dialed(0)] == [Dialed(0)];
    } else {
      RunKeeps(steps[..|steps| - 1]);
      StepKeeps(Exec(steps[..|steps| - 1]).value, steps[|steps| - 1]);
    }
  }
}
