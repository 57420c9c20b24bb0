/** The controller's side of an intentional pause (controller.rs): it shows each pause under a generation of
    its own, and only forwards a click that names the generation on screen, so that a late or repeated click
    made against one pause never ends another. */
module PauseClicks {
  import opened Wrappers
  import opened Bus
  import opened PowerPause

  // ---- the controller's generations --------------------------------------

  /** `ledger` lists, pause by pause, the generation each pause was shown under. `resuming` is
      the click whose `resume_power_pause` is between the swap and the send. */
  datatype System = System(bus: State, epoch: nat, paused: bool, generation: nat, resuming: Option<nat>,
                           ledger: seq<nat>)

  datatype Move =
    | BusMove(step: Step)
    | Deliver
    | ClickSwap(generation: nat)
    | ClickSend

  function Start(): System {
    System(Bus.Init(), 0, false, 0, None, [])
  }

  predicate Possible(s: System, move: Move) {
    match move
    case BusMove(step) =>
      Enabled(s.bus, step) && step != SwapLatch && step != EnqueueResume && step != TakeEvent
    case Deliver => s.bus.events != [] && s.resuming == None
    case ClickSwap(generation) => s.resuming == None
    case ClickSend => s.resuming.Some? && Enabled(s.bus, EnqueueResume)
  }

  /** The worker's handling of one bus event, as far as pauses go. */
  function OnEvent(s: System, event: Event): System {
    match event
    case Connected => s.(epoch := s.epoch + 1, paused := false)
    case Disconnected => s.(epoch := s.epoch + 1, paused := false)
    case PowerPaused =>
      s.(epoch := s.epoch + 1, paused := true, generation := s.epoch + 1, ledger := s.ledger + [s.epoch + 1])
    case Data(_, _) => s
  }

  predicate Accepted(s: System) {
    |s.bus.commands| < COMMAND_QUEUE && s.bus.phase != Stopped
  }

  function Moved(s: System, move: Move): System
    requires Possible(s, move)
  {
    match move
    case BusMove(step) => s.(bus := Next(s.bus, step))
    case Deliver => OnEvent(s.(bus := Next(s.bus, TakeEvent)), s.bus.events[0])
    case ClickSwap(generation) =>
      if s.paused && s.generation == generation && s.bus.powerPaused then
        s.(bus := Next(s.bus, SwapLatch), resuming := Some(generation))
      else s
    case ClickSend =>
      s.(bus := Next(s.bus, EnqueueResume), resuming := None, paused := s.paused && !Accepted(s))
  }

  function Play(moves: seq<Move>): Option<System> {
    if moves == [] then Some(Start())
    else
      var last := moves[|moves| - 1];
      match Play(moves[..|moves| - 1])
      case None => None
      case Some(before) => if Possible(before, last) then Some(Moved(before, last)) else None
  }

  /** Pauses announced by the actor or about to be, and not yet delivered. */
  function Undelivered(s: State): nat {
    Notices(s.events) + if s.paused && (s.phase == Closing || s.phase == Announcing) then 1 else 0
  }

  function Notices(events: seq<Event>): nat {
    if events == [] then 0 else (if events[0] == PowerPaused then 1 else 0) + Notices(events[1..])
  }

  lemma {:induction false} NoticesAppend(events: seq<Event>, e: Event)
    ensures Notices(events + [e]) == Notices(events) + if e == PowerPaused then 1 else 0
  {
    if events == [] {
      assert ([e])[1..] == [];
    } else {
      assert (events + [e])[1..] == events[1..] + [e];
      NoticesAppend(events[1..], e);
    }
  }

  ghost predicate SystemInv(s: System) {
    && TokenInv(s.bus)
    && s.bus.resumesInFlight == (if s.resuming.Some? then 1 else 0)
    && |s.ledger| + Undelivered(s.bus) <= Begun(s.bus.trace)
    && (Undelivered(s.bus) > 0 ==>
          && |s.ledger| + 1 == Begun(s.bus.trace) && Undelivered(s.bus) == 1
          && Episodes(s.bus.trace) == Stopping && !s.paused)
    && (s.bus.phase != Stopped && Undelivered(s.bus) == 0 ==> |s.ledger| == Begun(s.bus.trace))
    && (s.paused ==>
          && |s.ledger| == Begun(s.bus.trace) > 0 && s.ledger[|s.ledger| - 1] == s.generation
          && Episodes(s.bus.trace) == Stopping)
    && (s.resuming.Some? ==> s.paused && s.resuming == Some(s.generation))
    && (forall i :: 0 <= i < |s.ledger| ==> s.ledger[i] <= s.epoch)
    && (forall i, j :: 0 <= i < j < |s.ledger| ==> s.ledger[i] < s.ledger[j])
  }

  /** What a bus step leaves alone: everything but a pause beginning and its announcement. */
  ghost predicate PauseStep(s: State, s': State, stops: bool) {
    && s'.resumesInFlight == s.resumesInFlight
    && (Begun(s'.trace) == Begun(s.trace) ==>
          && (Undelivered(s') == Undelivered(s) || (stops && Undelivered(s') <= Undelivered(s)))
          && (Episodes(s'.trace) == Episodes(s.trace)
              || (Episodes(s.trace) == Waking && Episodes(s'.trace) == Running)))
    && (Begun(s'.trace) != Begun(s.trace) ==>
          && Begun(s'.trace) == Begun(s.trace) + 1 && Undelivered(s') == Undelivered(s) + 1
          && Episodes(s.trace) == Running && Episodes(s'.trace) == Stopping && s.phase != Stopped)
    && (s'.phase != Stopped ==> s.phase != Stopped && !stops)
  }

  lemma {:induction false} CallerFacts(s: State, step: Step)
    requires TokenInv(s) && Enabled(s, step) && IsCaller(step)
    ensures PauseStep(s, Next(s, step), false)
  {
    hide Episodes, Begun, AnswerAll, DropAll, Resumes, Notices, TakeOffline, TakeLive, TakeFrame, TokenInv, Teardown,
      Halt,
      Redial, Emit;
    match step
    case Check(call) => Extend(s.trace, Resolved(call, NotSent));
    case Submit(call) => Extend(s.trace, Resolved(call, NotSent));
    case TimeOut(call) => Extend(s.trace, Resolved(call, OutcomeUnknown));
    case Receive(call) =>
      var slot := s.calls[call].slot;
      Extend(s.trace, Resolved(call, if slot.Filled? then slot.verdict else OutcomeUnknown));
    case SubmitTopics(_) =>
  }

  lemma PausedWhere(s: State)
    requires TokenInv(s)
    ensures s.phase != Stopped && s.paused ==> s.phase == Closing || s.phase == Announcing || s.phase == Paused
  {
  }

  lemma {:induction false} ActorFacts(s: State, step: Step)
    requires TokenInv(s) && Enabled(s, step) && !IsCaller(step)
    requires step != SwapLatch && step != EnqueueResume && step != TakeEvent
    ensures PauseStep(s, Next(s, step), step == Stop)
  {
    hide Episodes, Begun, AnswerAll, DropAll, Resumes, Notices, TakeOffline, TakeLive, TakeFrame, TokenInv;
    PausedWhere(s);
    match step
    case OfflineCommand => OfflineFacts(s);
    case LiveCommand(expired, ok) => LiveFacts(s, expired, ok);
    case ReadFrame(frame, ok) => FrameFacts(s, frame, ok);
    case GreetDone(ok) =>
      Extend(s.trace, Emitted(s.socket, Connected));
      NoticesAppend(s.events, Connected);
    case Announce =>
      Extend(s.trace, Emitted(s.socket, PowerPaused));
      Extend(s.trace, Emitted(s.socket, Disconnected));
      NoticesAppend(s.events, PowerPaused);
      NoticesAppend(s.events, Disconnected);
    case BackoffDone => Extend(s.trace, Dialed(s.socket + 1));
    case _ =>
  }

  lemma OfflineFacts(s: State)
    requires TokenInv(s) && s.commands != [] && (s.phase == Paused || s.phase == Dialing || s.phase == Backoff)
    ensures var s' := TakeOffline(s);
      && Begun(s'.trace) == Begun(s.trace) && Undelivered(s') == Undelivered(s)
      && (Episodes(s'.trace) == Episodes(s.trace)
          || (Episodes(s.trace) == Waking && Episodes(s'.trace) == Running))
      && s'.resumesInFlight == s.resumesInFlight && s'.phase != Stopped
  {
    hide Episodes, Begun, AnswerAll, Notices;
    if s.commands[0] == Resume && s.phase == Paused {
      Extend(s.trace, PauseEnded);
      Extend(s.trace + [PauseEnded], Dialed(s.socket + 1));
      assert s.trace + [PauseEnded, Dialed(s.socket + 1)] == s.trace + [PauseEnded] + [Dialed(s.socket + 1)];
    }
  }

  lemma LiveFacts(s: State, expired: bool, ok: bool)
    requires TokenInv(s) && s.commands != [] && s.phase == Live
    ensures var s' := TakeLive(s, expired, ok);
      && Begun(s'.trace) == Begun(s.trace) && Undelivered(s') == Undelivered(s)
      && Episodes(s'.trace) == Episodes(s.trace)
      && s'.resumesInFlight == s.resumesInFlight && s'.phase != Stopped
  {
    hide Episodes, Begun, AnswerAll, Notices, Resumes;
    if s.commands[0].Call? {
      Extend(s.trace, Wrote(s.socket, s.counter + 1, s.commands[0].call));
    }
  }

  lemma {:induction false} FrameFacts(s: State, frame: Frame, ok: bool)
    requires TokenInv(s) && s.phase == Live
    ensures var s' := TakeFrame(s, frame, ok);
      && s'.resumesInFlight == s.resumesInFlight && s'.phase != Stopped
      && (if frame == Close(Some(PAUSE_CODE)) then
            && Begun(s'.trace) == Begun(s.trace) + 1 && Undelivered(s') == Undelivered(s) + 1
            && Episodes(s.trace) == Running && Episodes(s'.trace) == Stopping
          else
            && Begun(s'.trace) == Begun(s.trace) && Undelivered(s') == Undelivered(s)
            && Episodes(s'.trace) == Episodes(s.trace))
  {
    hide Episodes, Begun, AnswerAll, Notices, Resumes;
    var read := s.trace + [Read(s.socket, frame)];
    Extend(s.trace, Read(s.socket, frame));
    Extend(read, PauseBegan);
    if frame.EventFrame? && frame.topic.Some? {
      Extend(read, Emitted(s.socket, Data(frame.topic.value, frame.data)));
      NoticesAppend(s.events, Data(frame.topic.value, frame.data));
    }
  }

  lemma DeliverKeeps(s: System)
    requires SystemInv(s) && Possible(s, Deliver)
    ensures SystemInv(Moved(s, Deliver))
  {
    hide Episodes, Begun, Resumes;
  }

  lemma ClickKeeps(s: System, move: Move)
    requires SystemInv(s) && Possible(s, move) && (move.ClickSwap? || move.ClickSend?)
    ensures SystemInv(Moved(s, move))
  {
    hide Episodes, Begun, Notices;
    if move.ClickSwap? {
      if s.bus.powerPaused { StepKeeps(s.bus, SwapLatch); }
    } else {
      EnqueueResumeKeeps(s.bus);
      Extend(s.bus.trace, ResumeAccepted);
    }
  }

  lemma BusMoveKeeps(s: System, step: Step)
    requires SystemInv(s) && Possible(s, BusMove(step))
    ensures SystemInv(Moved(s, BusMove(step)))
  {
    hide Episodes, Begun, Next, Notices, Undelivered, Enabled, Resumes;
    StepKeeps(s.bus, step);
    if IsCaller(step) {
      CallerFacts(s.bus, step);
    } else {
      ActorFacts(s.bus, step);
    }
  }

  lemma MoveKeeps(s: System, move: Move)
    requires SystemInv(s) && Possible(s, move)
    ensures SystemInv(Moved(s, move))
  {
    hide SystemInv, Moved;
    match move
    case BusMove(step) => BusMoveKeeps(s, step);
    case Deliver => DeliverKeeps(s);
    case _ => ClickKeeps(s, move);
  }

  lemma StartKeeps()
    ensures SystemInv(Start())
  {
    Extend([], Dialed(0));
    assert [] + [Dialed(0)] == [Dialed(0)];
  }

  lemma {:induction false} PlayKeeps(moves: seq<Move>)
    requires Play(moves).Some?
    ensures SystemInv(Play(moves).value)
  {
    hide SystemInv, Moved, Possible;
    if moves == [] {
      StartKeeps();
    } else {
      PlayKeeps(moves[..|moves| - 1]);
      MoveKeeps(Play(moves[..|moves| - 1]).value, moves[|moves| - 1]);
    }
  }
}
