/** What every run of the bus tells the window: connections, their data and their ends, in order and without
    a hole, and no dial between a pause and its resume (bus.rs). */
module BusEvents {
  import opened Wrappers
  import opened Bus

  // ---- the grammar of announcements --------------------------------------

  /** Reader of ((Connected Data*)? (Disconnected | PowerPaused))*, with the dials between. */
  datatype Story = Start | Trying | Up | Down | Asleep | Awake | Broken

  function Hear(w: Story, e: IO): Story {
    match e
    case Dialed(_) => if w in {Start, Down, Awake} then Trying else Broken
    case PauseEnded => if w == Asleep then Awake else Broken
    case Emitted(_, Connected) => if w == Trying then Up else Broken
    case Emitted(_, Data(_, _)) => if w == Up then Up else Broken
    case Emitted(_, Disconnected) => if w in {Trying, Up} then Down else Broken
    case Emitted(_, PowerPaused) => if w in {Trying, Up} then Asleep else Broken
    case _ => w
  }

  function Told(t: seq<IO>): Story {
    if t == [] then Start else Hear(Told(t[..|t| - 1]), t[|t| - 1])
  }

  // ---- the data of one connection ----------------------------------------

  function Greeted(t: seq<IO>, socket: nat): bool {
    Read(socket, Hello) in t
  }

  /** The typed event frames read on `socket` after its hello, in order. */
  function Frames(t: seq<IO>, socket: nat): seq<(string, int)> {
    if t == [] then []
    else
      var front, last := t[..|t| - 1], t[|t| - 1];
      if last.Read? && last.socket == socket && last.frame.EventFrame? && last.frame.topic.Some?
         && Greeted(front, socket)
      then Frames(front, socket) + [(last.frame.topic.value, last.frame.data)]
      else Frames(front, socket)
  }

  /** The data announced on `socket`, in order. */
  function Announced(t: seq<IO>, socket: nat): seq<(string, int)> {
    if t == [] then []
    else
      var front, last := t[..|t| - 1], t[|t| - 1];
      if last.Emitted? && last.socket == socket && last.event.Data?
      then Announced(front, socket) + [(last.event.topic, last.event.data)]
      else Announced(front, socket)
  }

  /** Nothing is skipped, and at most the frame that overflowed the window's queue is missing. */
  ghost predicate NoHole(t: seq<IO>, socket: nat) {
    && Announced(t, socket) <= Frames(t, socket)
    && |Frames(t, socket)| <= |Announced(t, socket)| + 1
  }

  // ---- the inductive invariant -------------------------------------------

  datatype Line = Line(phase: Phase, ready: bool, socket: nat, trace: seq<IO>)

  function Talk(s: State): Line {
    Line(s.phase, s.ready, s.socket, s.trace)
  }

  ghost predicate StoryInv(l: Line) {
    match l.phase
    case Dialing => Told(l.trace) == Trying
    case Live => Told(l.trace) == if l.ready then Up else Trying
    case Sending => Told(l.trace) == Up && l.ready
    case Greeting => Told(l.trace) == Trying && l.ready
    case Closing => Told(l.trace) == if l.ready then Up else Trying
    case Announcing => Told(l.trace) in {Trying, Up}
    case Paused => Told(l.trace) == Asleep
    case Backoff => Told(l.trace) == Down
    case Stopped => Told(l.trace) != Broken
  }

  ghost predicate SocketInv(l: Line, k: nat) {
    && NoHole(l.trace, k)
    && (k > l.socket || (k == l.socket && l.phase == Dialing) ==> Frames(l.trace, k) == [] && !Greeted(l.trace, k))
    && (k == l.socket && Connection(l.phase) ==>
          && Announced(l.trace, k) == Frames(l.trace, k)
          && (Greeted(l.trace, k) <==> l.ready))
  }

  ghost predicate DataInv(l: Line) {
    forall k: nat :: SocketInv(l, k)
  }

  ghost predicate Inv(l: Line) {
    StoryInv(l) && DataInv(l)
  }

  /** One more entry of the history, seen by each reader. */
  lemma Extend(t: seq<IO>, e: IO, k: nat)
    ensures Told(t + [e]) == Hear(Told(t), e)
    ensures Greeted(t + [e], k) <==> Greeted(t, k) || e == Read(k, Hello)
    ensures var typed := e.Read? && e.socket == k && e.frame.EventFrame? && e.frame.topic.Some? && Greeted(t, k);
      Frames(t + [e], k) == if typed then Frames(t, k) + [(e.frame.topic.value, e.frame.data)] else Frames(t, k)
    ensures var data := e.Emitted? && e.socket == k && e.event.Data?;
      Announced(t + [e], k) == if data then Announced(t, k) + [(e.event.topic, e.event.data)] else Announced(t, k)
  {
    assert (t + [e])[..|t|] == t;
  }

  predicate Neutral(e: IO) {
    match e
    case Wrote(_, _, _) => true
    case Resolved(_, _) => true
    case PauseBegan => true
    case ResumeAccepted => true
    case Read(_, frame) => frame != Hello && !frame.EventFrame?
    case _ => false
  }

  lemma NeutralKeeps(l: Line, e: IO)
    requires Inv(l) && Neutral(e)
    ensures Inv(l.(trace := l.trace + [e]))
  {
    hide Told, Frames, Announced, Greeted;
    forall k: nat ensures SocketInv(l.(trace := l.trace + [e]), k) {
      assert SocketInv(l, k);
      Extend(l.trace, e, k);
    }
    Extend(l.trace, e, 0);
  }

  lemma TeardownKeeps(s: State)
    requires Inv(Talk(s)) && Connection(s.phase)
    ensures Inv(Talk(Teardown(s)))
  {
    hide Told, Frames, Announced, Greeted;
    forall k: nat ensures SocketInv(Talk(Teardown(s)), k) {
      assert SocketInv(Talk(s), k);
    }
  }

  /** A typed event frame is passed on whole, or ends the connection. */
  lemma EventFrameKeeps(s: State, topic: Option<string>, data: int)
    requires Inv(Talk(s)) && s.phase == Live
    ensures Inv(Talk(TakeFrame(s, EventFrame(topic, data), true)))
  {
    hide AnswerAll, Told, Frames, Announced, Greeted;
    var e := Read(s.socket, EventFrame(topic, data));
    var s' := TakeFrame(s, EventFrame(topic, data), true);
    var passed := s.ready && topic.Some? && |s.events| < EVENT_QUEUE;
    forall k: nat ensures SocketInv(Talk(s'), k) && StoryInv(Talk(s')) {
      assert SocketInv(Talk(s), k) && SocketInv(Talk(s), s.socket);
      Extend(s.trace, e, k);
      if passed {
        Extend(s.trace + [e], Emitted(s.socket, Data(topic.value, data)), k);
      }
    }
    assert SocketInv(Talk(s'), 0);
  }

  lemma HelloKeeps(s: State)
    requires Inv(Talk(s)) && s.phase == Live
    ensures Inv(Talk(TakeFrame(s, Hello, true)))
  {
    hide AnswerAll, Told, Frames, Announced, Greeted;
    forall k: nat ensures SocketInv(Talk(TakeFrame(s, Hello, true)), k) && StoryInv(Talk(TakeFrame(s, Hello, true))) {
      assert SocketInv(Talk(s), k) && SocketInv(Talk(s), s.socket);
      Extend(s.trace, Read(s.socket, Hello), k);
    }
    assert SocketInv(Talk(TakeFrame(s, Hello, true)), 0);
  }

  lemma FrameKeeps(s: State, frame: Frame, ok: bool)
    requires Inv(Talk(s)) && s.phase == Live
    ensures Inv(Talk(TakeFrame(s, frame, ok)))
  {
    hide Told, Frames, Announced, Greeted, AnswerAll, StoryInv, DataInv;
    if frame == Hello {
      HelloKeeps(s);
    } else if frame.EventFrame? {
      EventFrameKeeps(s, frame.topic, frame.data);
    } else {
      var r := s.(trace := s.trace + [Read(s.socket, frame)]);
      NeutralKeeps(Talk(s), Read(s.socket, frame));
      TeardownKeeps(r);
      if frame.Close? {
        CloseKeeps(Talk(r));
        NeutralKeeps(Talk(r).(phase := Closing), PauseBegan);
      }
    }
  }

  lemma CloseKeeps(l: Line)
    requires Inv(l) && l.phase == Live
    ensures Inv(l.(phase := Closing))
  {
    hide Told, Frames, Announced, Greeted;
    forall k: nat ensures SocketInv(l.(phase := Closing), k) {
      assert SocketInv(l, k);
    }
  }

  lemma OfflineKeeps(s: State)
    requires Inv(Talk(s)) && s.commands != [] && s.phase in {Paused, Dialing, Backoff}
    ensures Inv(Talk(TakeOffline(s)))
  {
    hide AnswerAll, Told, Frames, Announced, Greeted;
    var s' := TakeOffline(s);
    var woken := s.commands[0] == Resume && s.phase == Paused;
    forall k: nat ensures SocketInv(Talk(s'), k) && StoryInv(Talk(s')) {
      assert SocketInv(Talk(s), k);
      if woken {
        Extend(s.trace, PauseEnded, k);
        Extend(s.trace + [PauseEnded], Dialed(s.socket + 1), k);
        assert s'.trace == s.trace + [PauseEnded] + [Dialed(s.socket + 1)];
      }
    }
    assert SocketInv(Talk(s'), 0);
  }

  lemma SendingKeeps(l: Line)
    requires Inv(l) && l.phase == Live && l.ready
    ensures Inv(l.(phase := Sending))
  {
    forall k: nat ensures SocketInv(l.(phase := Sending), k) {
      assert SocketInv(l, k);
    }
  }

  lemma LiveKeeps(s: State, expired: bool, ok: bool)
    requires Inv(Talk(s)) && s.commands != [] && s.phase == Live
    ensures Inv(Talk(TakeLive(s, expired, ok)))
  {
    hide AnswerAll, StoryInv, DataInv, Told, Frames, Announced, Greeted;
    match s.commands[0]
    case Resume =>
    case Topics(topics) => TeardownKeeps(s);
    case Call(call) =>
      NeutralKeeps(Talk(s), Wrote(s.socket, s.counter + 1, call));
      if s.ready {
        SendingKeeps(Talk(s).(trace := s.trace + [Wrote(s.socket, s.counter + 1, call)]));
      }
  }

  /** Connected after hello, PowerPaused or Disconnected after the connection. */
  lemma AnnounceKeeps(l: Line, phase: Phase, event: Event)
    requires Inv(l)
    requires match event
      case Connected => l.phase == Greeting && phase == Live
      case Data(_, _) => false
      case Disconnected => l.phase == Announcing && phase == Backoff
      case PowerPaused => l.phase == Announcing && phase == Paused
    ensures Inv(l.(phase := phase, trace := l.trace + [Emitted(l.socket, event)]))
  {
    hide Told, Frames, Announced, Greeted;
    var l' := l.(phase := phase, trace := l.trace + [Emitted(l.socket, event)]);
    forall k: nat ensures SocketInv(l', k) && StoryInv(l') {
      assert SocketInv(l, k);
      Extend(l.trace, Emitted(l.socket, event), k);
    }
    assert SocketInv(l', 0);
  }

  lemma StepKeeps(s: State, step: Step)
    requires Inv(Talk(s)) && Enabled(s, step)
    ensures Inv(Talk(Next(s, step)))
  {
    hide Told, Frames, Announced, Greeted, StoryInv, DataInv, TakeLive, TakeFrame, TakeOffline, Teardown,
      AnswerAll, DropAll;
    match step
    case Check(call) => NeutralKeeps(Talk(s), Resolved(call, NotSent));
    case Submit(call) => NeutralKeeps(Talk(s), Resolved(call, NotSent));
    case TimeOut(call) => NeutralKeeps(Talk(s), Resolved(call, OutcomeUnknown));
    case Receive(call) =>
      var slot := s.calls[call].slot;
      NeutralKeeps(Talk(s), Resolved(call, if slot.Filled? then slot.verdict else OutcomeUnknown));
    case EnqueueResume => NeutralKeeps(Talk(s), ResumeAccepted);
    case OfflineCommand => OfflineKeeps(s);
    case DialDone(ok) => DialedKeeps(Talk(s), ok);
    case LiveCommand(expired, ok) => LiveKeeps(s, expired, ok);
    case SendDone(ok) => SentKeeps(Talk(s)); if !ok { TeardownKeeps(s); }
    case Heartbeat(ok) => if !ok { TeardownKeeps(s); }
    case ReadFrame(frame, ok) => FrameKeeps(s, frame, ok);
    case GreetDone(ok) =>
      if ok && |s.events| < EVENT_QUEUE { AnnounceKeeps(Talk(s), Live, Connected); } else { TeardownKeeps(s); }
    case FlushDone => TeardownKeeps(s);
    case Announce => 
      if s.paused { AnnounceKeeps(Talk(s), Paused, PowerPaused); }
      else { AnnounceKeeps(Talk(s), Backoff, Disconnected); }
    case BackoffDone => RedialKeeps(Talk(s));
    case Stop => HaltKeeps(Talk(s));
    case _ =>
  }

  lemma DialedKeeps(l: Line, ok: bool)
    requires Inv(l) && l.phase == Dialing
    ensures Inv(if ok then l.(phase := Live, ready := false) else l.(phase := Announcing))
  {
    hide Told, Frames, Announced, Greeted;
    var l' := if ok then l.(phase := Live, ready := false) else l.(phase := Announcing);
    forall k: nat ensures SocketInv(l', k) {
      assert SocketInv(l, k);
    }
  }

  lemma SentKeeps(l: Line)
    requires Inv(l) && l.phase == Sending
    ensures Inv(l.(phase := Live))
  {
    hide Told, Frames, Announced, Greeted;
    forall k: nat ensures SocketInv(l.(phase := Live), k) {
      assert SocketInv(l, k);
    }
  }

  lemma HaltKeeps(l: Line)
    requires Inv(l)
    ensures Inv(l.(phase := Stopped))
  {
    hide Told, Frames, Announced, Greeted;
    forall k: nat ensures SocketInv(l.(phase := Stopped), k) {
      assert SocketInv(l, k);
    }
  }

  lemma RedialKeeps(l: Line)
    requires Inv(l) && l.phase == Backoff
    ensures Inv(l.(phase := Dialing, socket := l.socket + 1, trace := l.trace + [Dialed(l.socket + 1)]))
  {
    hide Told, Frames, Announced, Greeted;
    var l' := l.(phase := Dialing, socket := l.socket + 1, trace := l.trace + [Dialed(l.socket + 1)]);
    forall k: nat ensures SocketInv(l', k) && StoryInv(l') {
      assert SocketInv(l, k);
      Extend(l.trace, Dialed(l.socket + 1), k);
    }
    assert SocketInv(l', 0);
  }

  // ---- every run ---------------------------------------------------------

  lemma {:induction false} RunKeeps(steps: seq<Step>)
    requires Exec(steps).Some?
    ensures Inv(Talk(Exec(steps).value))
  {
    if steps == [] {
      forall k: nat ensures SocketInv(Talk(Init()), k) && StoryInv(Talk(Init())) {
        Extend([], Dialed(0), k);
        assert [] + [Dialed(0)] == [Dialed(0)];
      }
      assert SocketInv(Talk(Init()), 0);
    } else {
      RunKeeps(steps[..|steps| - 1]);
      StepKeeps(Exec(steps[..|steps| - 1]).value, steps[|steps| - 1]);
    }
  }

  /** No dial follows a pause announcement unless the pause ended in between. */
  lemma {:induction false} NoDialWhileAsleep(t: seq<IO>, i: nat, j: nat) returns (k: nat)
    requires i < j < |t| && t[i].Emitted? && t[i].event == PowerPaused && t[j].Dialed?
    requires Told(t) != Broken
    ensures i < k < j && t[k] == PauseEnded
  {
    NeverBroken(t, i + 1);
    NeverBroken(t, j + 1);
    k := i + 1;
    assert t[..i + 1][..i] == t[..i];
    while t[k] != PauseEnded
      invariant i < k <= j
      invariant Told(t[..k]) == Asleep
      invariant Told(t[..j + 1]) != Broken
      decreases j - k
    {
      assert t[..k + 1][..k] == t[..k];
      NeverBroken(t, k + 1);
      k := k + 1;
    }
    assert t[k] == PauseEnded;
  }

  /** A reader that ends well was never broken on the way. */
  lemma {:induction false} NeverBroken(t: seq<IO>, n: nat)
    requires n <= |t| && Told(t) != Broken
    ensures Told(t[..n]) != Broken
  {
    if n == |t| {
      assert t[..n] == t;
    } else {
      assert t[..|t| - 1][..n] == t[..n];
      NeverBroken(t[..|t| - 1], n);
    }
  }
}
