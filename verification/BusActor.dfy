/** The actor's loop and the client's handle as they change their fields, each proved to be the
    matching step of the transition system in `Bus`. */
module BusActor {
  import opened Wrappers
  import opened Bus
  import BusCalls
  import BusEvents
  import PowerPause

  // ---- what the steps keep -----------------------------------------------

  /** Every caller's account, the story told to the window and the resume token. `senders` says where
      each call's reply sender is. */
  ghost predicate Sound(s: State, senders: map<nat, BusCalls.Sender>) {
    BusCalls.Inv(s, senders) && BusEvents.Inv(BusEvents.Talk(s)) && PowerPause.TokenInv(s)
  }

  lemma StepSound(s: State, step: Step, m: map<nat, BusCalls.Sender>) returns (m': map<nat, BusCalls.Sender>)
    requires Sound(s, m) && Enabled(s, step)
    ensures Sound(Next(s, step), m')
  {
    hide BusCalls.Inv, BusEvents.Inv, PowerPause.TokenInv, Next;
    m' := BusCalls.StepKeeps(s, step, m);
    BusEvents.StepKeeps(s, step);
    PowerPause.StepKeeps(s, step);
  }

  /** Every verdict on its way to a caller, or delivered, is true of what reached a socket. */
  ghost predicate VerdictsTrue(s: State) {
    forall c {:trigger s.calls[c]} :: c in s.calls ==>
      && (forall v :: s.calls[c] == Waiting(Filled(v)) ==> BusCalls.Truthful(s.trace, c, v))
      && (forall v :: s.calls[c] == Done(v) ==> BusCalls.Truthful(s.trace, c, v))
  }

  /** What a sound state promises: the pending bound, true verdicts, one frame and one verdict a call,
      the story so far, this connection's data whole, and one resume token in a pause, none outside. */
  ghost predicate Promised(s: State) {
    && |s.pending| <= MAX_PENDING && VerdictsTrue(s)
    && BusCalls.WrittenOnce(s.trace) && BusCalls.ResolvedOnce(s.trace)
    && BusEvents.Told(s.trace) != BusEvents.Broken
    && (s.phase == Live ==> BusEvents.Announced(s.trace, s.socket) == BusEvents.Frames(s.trace, s.socket))
    && (s.phase == Backoff ==> BusEvents.Told(s.trace) == BusEvents.Down)
    && (s.phase == Paused ==> BusEvents.Told(s.trace) == BusEvents.Asleep)
    && (s.phase != Stopped ==> PowerPause.Tokens(s) == if s.paused then 1 else 0)
  }

  lemma SoundPromises(s: State, m: map<nat, BusCalls.Sender>)
    requires Sound(s, m)
    ensures Promised(s)
  {
    hide BusCalls.Truthful, BusCalls.WrittenOnce, BusCalls.ResolvedOnce, BusEvents.Told, BusEvents.Announced,
      BusEvents.Frames;
    assert BusEvents.SocketInv(BusEvents.Talk(s), s.socket);
    forall c | c in s.calls
      ensures forall v :: s.calls[c] == Waiting(Filled(v)) || s.calls[c] == Done(v) ==>
        BusCalls.Truthful(s.trace, c, v)
    {
      BusCalls.CallFacts(BusCalls.Calls(s), m, c);
      UnknownIsTrue(s.trace, c);
    }
  }

  lemma UnknownIsTrue(t: seq<IO>, c: nat)
    ensures BusCalls.Truthful(t, c, OutcomeUnknown)
  {
  }

  // Each handler's step, as its method needs it.

  /** The first half of `call_inner` with nothing in between. */
  function Entered(s: State, call: nat): State {
    if s.connected && Accepting(s)
    then s.(calls := s.calls[call := Waiting(Empty)], commands := s.commands + [Call(call)])
    else Resolve(s, call, NotSent)
  }

  lemma EnterSound(s: State, m: map<nat, BusCalls.Sender>, call: nat) returns (m': map<nat, BusCalls.Sender>)
    requires Sound(s, m) && call !in s.calls
    ensures Entered(s, call) == if s.connected then Submitted(Asked(s, call), call) else Asked(s, call)
    ensures Sound(Entered(s, call), m')
    ensures Entered(s, call).calls[call] == Done(NotSent) ==> BusCalls.Unwritten(Entered(s, call).trace, call)
  {
    hide Sound;
    m' := StepSound(s, Check(call), m);
    if s.connected { m' := StepSound(Asked(s, call), Submit(call), m'); }
    assert s.calls[call := Asking][call := Waiting(Empty)] == s.calls[call := Waiting(Empty)];
    assert s.calls[call := Asking][call := Done(NotSent)] == s.calls[call := Done(NotSent)];
    if Entered(s, call).calls[call] == Done(NotSent) { NeverSent(Entered(s, call), m', call); }
  }

  /** `resume_power_pause` with nothing in between, when the latch is set and the queue has room. */
  function Resumed(s: State): State {
    s.(powerPaused := false, commands := s.commands + [Resume], trace := s.trace + [ResumeAccepted])
  }

  lemma ResumeSound(s: State, m: map<nat, BusCalls.Sender>) returns (m': map<nat, BusCalls.Sender>)
    requires Sound(s, m) && s.powerPaused && Accepting(s)
    ensures Resumed(s) == Resuming(Swapped(s)) && Sound(Resumed(s), m')
    ensures s.paused && PowerPause.Tokens(Resumed(s)) == 1
  {
    hide Sound, PowerPause.Tokens;
    m' := StepSound(s, SwapLatch, m);
    m' := StepSound(Swapped(s), EnqueueResume, m');
    OneToken(Resumed(s), m', s.commands);
  }

  lemma OfflineSound(s: State, m: map<nat, BusCalls.Sender>) returns (m': map<nat, BusCalls.Sender>)
    requires Sound(s, m) && s.phase in {Paused, Dialing, Backoff} && s.commands != []
    ensures Sound(TakeOffline(s), m') && Promised(TakeOffline(s))
  {
    hide Sound, Promised, TakeOffline;
    m' := StepSound(s, OfflineCommand, m);
    SoundPromises(TakeOffline(s), m');
  }

  /** The call goes on the wire under the next id. */
  function Written(s: State, call: nat): State {
    s.(counter := s.counter + 1, pending := s.pending[s.counter + 1 := call], phase := Sending,
       trace := s.trace + [Wrote(s.socket, s.counter + 1, call)])
  }

  lemma LiveSound(s: State, m: map<nat, BusCalls.Sender>, expired: bool, ok: bool)
    returns (m': map<nat, BusCalls.Sender>)
    requires Sound(s, m) && s.phase == Live && s.commands != []
    ensures Sound(TakeLive(s, expired, ok), m') && Promised(TakeLive(s, expired, ok))
  {
    hide Sound, Promised, TakeLive;
    m' := StepSound(s, LiveCommand(expired, ok), m);
    SoundPromises(TakeLive(s, expired, ok), m');
  }

  lemma FrameSound(s: State, m: map<nat, BusCalls.Sender>, frame: Frame, ok: bool)
    returns (m': map<nat, BusCalls.Sender>)
    requires Sound(s, m) && s.phase == Live
    ensures Sound(TakeFrame(s, frame, ok), m') && Promised(TakeFrame(s, frame, ok))
  {
    hide Sound, Promised, TakeFrame;
    m' := StepSound(s, ReadFrame(frame, ok), m);
    SoundPromises(TakeFrame(s, frame, ok), m');
  }

  lemma AnnounceSound(s: State, m: map<nat, BusCalls.Sender>) returns (m': map<nat, BusCalls.Sender>)
    requires Sound(s, m) && s.phase == Announcing && |s.events| < EVENT_QUEUE
    ensures Sound(EndAnnounced(s), m') && Promised(EndAnnounced(s))
  {
    hide Sound, Promised, EndAnnounced;
    m' := StepSound(s, Announce, m);
    SoundPromises(EndAnnounced(s), m');
  }

  lemma RedialSound(s: State, m: map<nat, BusCalls.Sender>) returns (m': map<nat, BusCalls.Sender>)
    requires Sound(s, m) && s.phase == Backoff
    ensures Sound(Redial(s), m') && Promised(Redial(s))
  {
    hide Sound, Promised, Redial;
    m' := StepSound(s, BackoffDone, m);
    SoundPromises(Redial(s), m');
  }

  /** A resume in the queue is the one token of a pause going on. */
  lemma OneToken(s: State, m: map<nat, BusCalls.Sender>, queue: seq<Command>)
    requires Sound(s, m) && s.phase != Stopped && s.commands == queue + [Resume]
    ensures s.paused && PowerPause.Tokens(s) == 1
  {
    PowerPause.ResumesAppend(queue, Resume);
  }

  lemma NeverSent(s: State, m: map<nat, BusCalls.Sender>, call: nat)
    requires Sound(s, m) && call in s.calls && s.calls[call] == Done(NotSent)
    ensures BusCalls.Unwritten(s.trace, call)
  {
    BusCalls.CallFacts(BusCalls.Calls(s), m, call);
  }

  lemma InitSound()
    ensures Sound(Init(), map[])
  {
    var m := BusCalls.RunKeeps([]);
    BusEvents.RunKeeps([]);
    PowerPause.RunKeeps([]);
  }

  lemma ValuesWithout(p: map<nat, nat>, id: nat)
    requires id in p
    ensures p.Values == (p - {id}).Values + {p[id]}
  {
    forall v | v in p.Values ensures v in (p - {id}).Values + {p[id]} {
      var k :| k in p && p[k] == v;
      assert k != id ==> (p - {id})[k] == v;
    }
  }

  lemma AnswerMore(calls: map<nat, Caller>, to: set<nat>, call: nat, verdict: Verdict)
    ensures Answer(AnswerAll(calls, to, verdict), call, verdict) == AnswerAll(calls, to + {call}, verdict)
  {
  }

  lemma AnswerNone(calls: map<nat, Caller>, verdict: Verdict)
    ensures AnswerAll(calls, {}, verdict) == calls
  {
  }

  class Hub {
    var commands: seq<Command>
    var connected: bool
    var powerPaused: bool
    var resumesInFlight: nat
    var calls: map<nat, Caller>
    var phase: Phase
    var paused: bool
    var topics: set<string>
    var counter: nat
    var backoff: nat
    var socket: nat
    var ready: bool
    var sentTopics: set<string>
    var pending: map<nat, nat>
    var events: seq<Event>
    ghost var trace: seq<IO>
    ghost var senders: map<nat, BusCalls.Sender>

    ghost function View(): State
      reads this
    {
      State(commands, connected, powerPaused, resumesInFlight, calls, phase, paused, topics, counter, backoff,
            socket, ready, sentTopics, pending, events, trace)
    }

    /** What every step keeps, whoever else is at work: see `SoundFacts`. */
    ghost predicate Valid()
      reads this
    {
      Sound(View(), senders)
    }

    constructor ()
      ensures View() == Init() && Valid()
    {
      commands, connected, powerPaused, resumesInFlight, calls := [], false, false, 0, map[];
      phase, paused, topics, counter, backoff, socket := Dialing, false, {}, 0, FIRST_BACKOFF, 0;
      ready, sentTopics, pending, events := false, {}, map[], [];
      trace, senders := [Dialed(0)], map[];
      new;
      InitSound();
    }

    /** `Client::resume_power_pause` with nothing in between: either exactly one resume is queued
        and the latch consumed, or nothing changes. */
    method ResumePowerPause() returns (accepted: bool)
      requires Valid()
      modifies this
      ensures Valid()
      ensures accepted == (old(powerPaused) && Accepting(old(View())))
      ensures View() == if accepted then Resumed(old(View())) else old(View())
      ensures accepted ==> !powerPaused && commands == old(commands) + [Resume]
      ensures accepted ==> PowerPause.Tokens(View()) == 1 && paused
    {
      hide Sound, PowerPause.Tokens, Resuming, Swapped;
      if !powerPaused {
        return false;
      }
      if Accepting(View()) { senders := ResumeSound(View(), senders); }
      powerPaused := false;
      resumesInFlight := resumesInFlight + 1;
      if |commands| < COMMAND_QUEUE && phase != Stopped {
        commands := commands + [Resume];
        trace := trace + [ResumeAccepted];
        accepted := true;
      } else {
        powerPaused := true;
        accepted := false;
      }
      resumesInFlight := resumesInFlight - 1;
    }

    /** The first half of `call_inner`: the connected check, then the bounded enqueue. */
    method Call(call: nat) returns (sent: bool)
      requires Valid() && call !in calls
      modifies this
      ensures Valid()
      ensures sent == (old(connected) && Accepting(old(View())))
      ensures View() == Entered(old(View()), call)
      ensures !sent ==> calls[call] == Done(NotSent) && BusCalls.Unwritten(trace, call)
    {
      hide Sound, BusCalls.Unwritten, Asked, Submitted;
      senders := EnterSound(View(), senders, call);
      if !connected {
        calls := calls[call := Done(NotSent)];
        trace := trace + [Resolved(call, NotSent)];
        return false;
      }
      if |commands| < COMMAND_QUEUE && phase != Stopped {
        calls := calls[call := Waiting(Empty)];
        commands := commands + [Bus.Call(call)];
        sent := true;
      } else {
        calls := calls[call := Done(NotSent)];
        trace := trace + [Resolved(call, NotSent)];
        sent := false;
      }
    }

    /** An accepted resume reaches the paused loop: dial again, from the first backoff. */
    method EndPause()
      modifies `phase, `paused, `backoff, `socket, `trace
      ensures View() == old(View()).(phase := Dialing, paused := false, backoff := FIRST_BACKOFF,
                                     socket := old(socket) + 1,
                                     trace := old(trace) + [PauseEnded, Dialed(old(socket) + 1)])
    {
      paused := false;
      backoff := FIRST_BACKOFF;
      socket := socket + 1;
      trace := trace + [PauseEnded, Dialed(socket)];
      phase := Dialing;
    }

    /** A command taken while there is no connection; in the paused loop a resume redials. */
    method OfflineCommand()
      requires Valid() && phase in {Paused, Dialing, Backoff} && commands != []
      modifies `commands, `phase, `paused, `backoff, `socket, `trace, `topics, `calls, `senders
      ensures View() == TakeOffline(old(View()))
      ensures Valid() && Promised(View())
    {
      hide Sound, Promised, AnswerAll, Answer;
      senders := OfflineSound(View(), senders);
      var command := commands[0];
      commands := commands[1..];
      match command
      case Resume =>
        if phase == Paused {
          EndPause();
        }
      case Topics(wanted) =>
        topics := wanted;
      case Call(call) =>
        calls := Answer(calls, call, NotSent);
    }

    /** Leaving the connection loop drains the pending table with "outcome unknown". */
    method LeaveConnection()
      modifies `connected, `ready, `phase, `calls, `pending
      ensures !connected && !ready && phase == Announcing && pending == map[]
      ensures calls == AnswerAll(old(calls), old(pending).Values, OutcomeUnknown)
    {
      hide AnswerAll;
      connected := false;
      ready := false;
      phase := Announcing;
      AnswerNone(calls, OutcomeUnknown);
      ghost var answered := {};
      while pending != map[]
        invariant answered + pending.Values == old(pending).Values
        invariant calls == AnswerAll(old(calls), answered, OutcomeUnknown)
        modifies `calls, `pending
        decreases |pending|
      {
        var id :| id in pending;
        ValuesWithout(pending, id);
        AnswerMore(old(calls), answered, pending[id], OutcomeUnknown);
        calls := Answer(calls, pending[id], OutcomeUnknown);
        answered := answered + {pending[id]};
        pending := pending - {id};
      }
      assert pending.Values == {};
    }

    /** Put a call on the wire under the next id; ids are never used again. */
    method Write(call: nat)
      modifies `counter, `pending, `trace, `phase
      ensures counter == old(counter) + 1 && pending == old(pending)[counter := call] && phase == Sending
      ensures trace == old(trace) + [Wrote(socket, counter, call)]
    {
      counter := counter + 1;
      pending := pending[counter := call];
      trace := trace + [Wrote(socket, counter, call)];
      phase := Sending;
    }

    /** A call that cannot be sent now is refused; any other is written, so at most 64 are pending. */
    method SendCall(call: nat, expired: bool)
      modifies `counter, `pending, `trace, `phase, `calls
      ensures if !ready || expired || Closed(old(calls), call) || |old(pending)| >= MAX_PENDING
              then View() == old(View()).(calls := Answer(old(calls), call, NotSent))
              else View() == Written(old(View()), call)
    {
      hide AnswerAll, Answer;
      if !ready || expired || Closed(calls, call) {
        calls := Answer(calls, call, NotSent);
      } else if |pending| >= MAX_PENDING {
        calls := Answer(calls, call, NotSent);
      } else {
        Write(call);
      }
    }

    /** New topics are subscribed by their difference to what was sent, once the hub is ready. */
    method SetTopics(wanted: set<string>, ok: bool)
      modifies `topics, `sentTopics, `connected, `ready, `phase, `calls, `pending
      ensures var s := old(View()).(topics := wanted);
        View() == if !s.ready then s
                  else if wanted != s.sentTopics && !ok then Teardown(s)
                  else s.(sentTopics := wanted)
    {
      hide AnswerAll;
      topics := wanted;
      if ready {
        if topics != sentTopics && !ok {
          LeaveConnection();
        } else {
          sentTopics := topics;
        }
      }
    }

    /** A command taken by the connection loop; `ok` says whether a topic frame reached the socket. */
    method LiveCommand(expired: bool, ok: bool)
      requires Valid() && phase == Live && commands != []
      modifies this
      ensures View() == TakeLive(old(View()), expired, ok)
      ensures Valid() && Promised(View())
    {
      hide Sound, Promised, AnswerAll, Teardown;
      senders := LiveSound(View(), senders, expired, ok);
      var command := commands[0];
      commands := commands[1..];
      match command
      case Resume =>
      case Topics(wanted) =>
        SetTopics(wanted, ok);
      case Call(call) =>
        SendCall(call, expired);
    }

    /** `hello`: the connection is usable; callers may send from here on. */
    method OnHello()
      requires phase == Live
      modifies `trace, `ready, `backoff, `connected, `phase
      ensures View() == TakeFrame(old(View()), Hello, true)
    {
      trace := trace + [Read(socket, Hello)];
      if !ready {
        ready := true;
        backoff := FIRST_BACKOFF;
        connected := true;
        phase := Greeting;
      }
    }

    /** A reply settles the pending call of its id, once; a foreign or repeated id is ignored. */
    method OnReply(id: Option<nat>, body: Body)
      requires phase == Live
      modifies `trace, `pending, `calls
      ensures View() == TakeFrame(old(View()), Reply(id, body), true)
    {
      hide AnswerAll;
      trace := trace + [Read(socket, Reply(id, body))];
      if id.Some? && id.value in pending {
        var call := pending[id.value];
        pending := pending - {id.value};
        calls := Answer(calls, call, CallResult(body));
      }
    }

    /** A typed event is passed to the window, or, when its queue is full, ends the connection. */
    method OnEvent(topic: Option<string>, data: int)
      requires phase == Live
      modifies `trace, `events, `connected, `ready, `phase, `calls, `pending
      ensures View() == TakeFrame(old(View()), EventFrame(topic, data), true)
    {
      hide AnswerAll;
      trace := trace + [Read(socket, EventFrame(topic, data))];
      if ready && topic.Some? {
        if |events| < EVENT_QUEUE {
          events := events + [Data(topic.value, data)];
          trace := trace + [Emitted(socket, Data(topic.value, data))];
        } else {
          LeaveConnection();
        }
      }
    }

    /** Close code 4001 is the only frame that pauses: it sets the latch a resume consumes. */
    method OnClose(code: Option<nat>)
      requires phase == Live
      modifies `trace, `paused, `powerPaused, `phase
      ensures View() == TakeFrame(old(View()), Close(code), true)
    {
      hide AnswerAll;
      trace := trace + [Read(socket, Close(code))];
      if code == Some(PAUSE_CODE) {
        paused := true;
        powerPaused := true;
        trace := trace + [PauseBegan];
      }
      phase := Closing;
    }

    /** The rest: an unreadable message, a lost socket or an unanswerable ping ends the connection. */
    method OnOther(frame: Frame, ok: bool)
      requires phase == Live
      requires frame == OtherOp || frame == BadJson || frame == Ping || frame == Pong || frame == Gone
      modifies `trace, `connected, `ready, `phase, `calls, `pending
      ensures View() == TakeFrame(old(View()), frame, ok)
    {
      hide AnswerAll;
      trace := trace + [Read(socket, frame)];
      if frame == BadJson || frame == Gone || (frame == Ping && !ok) {
        LeaveConnection();
      }
    }

    /** One message read from the socket; `ok` says whether a pong could be sent. */
    method OnFrame(frame: Frame, ok: bool)
      requires Valid() && phase == Live
      modifies this
      ensures View() == TakeFrame(old(View()), frame, ok)
      ensures Valid() && Promised(View())
    {
      hide Sound, Promised, AnswerAll;
      senders := FrameSound(View(), senders, frame, ok);
      match frame
      case Hello => OnHello();
      case Reply(id, body) => OnReply(id, body);
      case EventFrame(topic, data) => OnEvent(topic, data);
      case Close(code) => OnClose(code);
      case _ => OnOther(frame, ok);
    }

    /** After the loop: say why, then sleep through a pause or back off. */
    method AnnounceEnd()
      requires Valid() && phase == Announcing && |events| < EVENT_QUEUE
      modifies this
      ensures View() == EndAnnounced(old(View()))
      ensures Valid() && Promised(View())
    {
      hide Sound, Promised;
      senders := AnnounceSound(View(), senders);
      var event := if paused then PowerPaused else Disconnected;
      events := events + [event];
      trace := trace + [Emitted(socket, event)];
      phase := if paused then Paused else Backoff;
    }

    method BackedOff()
      requires Valid() && phase == Backoff
      modifies this
      ensures View() == Redial(old(View()))
      ensures Valid() && Promised(View()) && backoff <= LAST_BACKOFF
    {
      hide Sound, Promised;
      senders := RedialSound(View(), senders);
      backoff := backoff * 2;
      if backoff >= LAST_BACKOFF {
        backoff := LAST_BACKOFF;
      }
      socket := socket + 1;
      trace := trace + [Dialed(socket)];
      phase := Dialing;
    }
  }
}
