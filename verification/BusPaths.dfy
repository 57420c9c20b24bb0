/** How a connection comes up, carries events and ends, step by step, and what a pause and its
    resume do (bus.rs). */
module BusPaths {
  import opened Wrappers
  import opened Bus

  // ---- callers and their queue -------------------------------------------

  /** While the hub is away a call is told at once that it was not sent, and so is one that finds the
      queue full or the actor gone; any other waits at the end of the queue. */
  lemma CallIsQueuedOrTold(s: State, call: nat)
    ensures call !in s.calls ==>
      var t := Next(s, Check(call));
      t.calls == s.calls[call := if s.connected then Asking else Done(NotSent)] && t.commands == s.commands
    ensures Enabled(s, Submit(call)) ==>
      var t := Next(s, Submit(call));
      if |s.commands| < 64 && s.phase != Stopped then
        t.calls == s.calls[call := Waiting(Empty)] && t.commands == s.commands + [Call(call)]
      else t.calls == s.calls[call := Done(NotSent)] && t.commands == s.commands
  {
  }

  /** Topics wait their turn too; once taken they are the client's, and a ready connection is told of them
      or ends. */
  lemma TakenTopicsStand(s: State, topics: set<string>, expired: bool, ok: bool)
    requires s.commands != [] && s.commands[0] == Topics(topics)
    ensures Enabled(s, OfflineCommand) ==> Next(s, OfflineCommand) == s.(commands := s.commands[1..], topics := topics)
    ensures s.phase == Live ==>
      var t := Next(s, LiveCommand(expired, ok));
      && t.commands == s.commands[1..] && t.topics == topics
      && (t.phase == if s.ready && topics != s.sentTopics && !ok then Announcing else Live)
      && (t.phase == Live ==> t.sentTopics == if s.ready then topics else s.sentTopics)
    ensures Enabled(s, SubmitTopics(topics)) ==>
      Next(s, SubmitTopics(topics)) == s.(commands := s.commands + [Topics(topics)])
  {
  }

  // ---- a connection comes up ---------------------------------------------

  /** A dial that succeeds, the hub's hello and a greeting that goes out make a connection: announced to the
      window, ready for calls, with the client's topics and the first backoff again. */
  lemma HelloConnects(s: State, ok: bool)
    requires s.phase == Dialing && |s.events| < 256
    ensures var dialed := Next(s, DialDone(true));
      && dialed.phase == Live && !dialed.ready && Enabled(dialed, ReadFrame(Hello, ok))
      && var greeting := Next(dialed, ReadFrame(Hello, ok));
      && Enabled(greeting, GreetDone(true))
      && var t := Next(greeting, GreetDone(true));
      && t.phase == Live && t.ready && t.connected && t.sentTopics == t.topics == s.topics && t.backoff == 250
      && t.pending == map[] && t.commands == s.commands && t.calls == s.calls && t.socket == s.socket
      && t.events == s.events + [Connected]
      && t.trace == s.trace + [Read(s.socket, Hello), Emitted(s.socket, Connected)]
  {
  }

  /** A second hello, a pong, an answered ping, another op and a reply to nobody change nothing. */
  lemma IdleFramesChangeNothing(s: State, frame: Frame, ok: bool)
    requires s.phase == Live
    requires (frame == Hello && s.ready) || frame == OtherOp || frame == Pong || (frame == Ping && ok) ||
      (frame.Reply? && (frame.id.None? || frame.id.value !in s.pending)) ||
      (frame.EventFrame? && (frame.topic.None? || !s.ready))
    ensures Next(s, ReadFrame(frame, ok)) == s.(trace := s.trace + [Read(s.socket, frame)])
  {
  }

  /** A typed event on a ready connection goes to the window while it has room. */
  lemma EventIsAnnounced(s: State, topic: string, data: int, ok: bool)
    requires s.phase == Live && s.ready
    ensures var t := Next(s, ReadFrame(EventFrame(Some(topic), data), ok));
      if |s.events| < 256 then t.phase == Live && t.ready && t.events == s.events + [Data(topic, data)]
      else t.phase == Announcing
  {
  }

  // ---- and ends ----------------------------------------------------------

  /** What cannot be read, sent or answered ends the connection at once. */
  lemma TroubleEnds(s: State, step: Step)
    requires Enabled(s, step)
    requires step in {SendDone(false), Heartbeat(false), GreetDone(false)} ||
      (step.ReadFrame? && (step.frame in {BadJson, Gone} || (step.frame == Ping && !step.ok)))
    ensures var t := Next(s, step); t.phase == Announcing && t.pending == map[] && !t.connected && !t.ready
    ensures Next(s, step).paused == s.paused && Next(s, step).powerPaused == s.powerPaused
  {
  }

  lemma NextDial(s: State)
    requires s.phase == Backoff
    ensures var t := Next(s, BackoffDone); t.phase == Dialing && t.socket == s.socket + 1
  {
  }

  /** A close is answered and ends the connection; only code 4001 begins a pause, with the latch set for one
      resume. */
  lemma CloseEnds(s: State, code: Option<nat>, ok: bool)
    requires s.phase == Live && !s.paused
    ensures var closing := Next(s, ReadFrame(Close(code), ok));
      && Enabled(closing, FlushDone)
      && var t := Next(closing, FlushDone);
      && t.phase == Announcing && t.pending == map[] && !t.connected && t.events == s.events
      && t.paused == (code == Some(4001)) && t.powerPaused == (s.powerPaused || code == Some(4001))
  {
    hide AnswerAll;
  }

  /** A connection that is over is announced: a pause then dials nothing, any other end dials again. */
  lemma EndIsAnnounced(s: State, ok: bool)
    requires s.phase == Announcing && |s.events| < 256
    ensures Enabled(s, Announce)
    ensures var t := Next(s, Announce);
      if s.paused then
        && t.phase == Paused && t.events == s.events + [PowerPaused]
        && !Enabled(t, DialDone(ok)) && !Enabled(t, BackoffDone)
      else t.phase == Backoff && t.events == s.events + [Disconnected] && Enabled(t, BackoffDone)
  {
  }

  /** A resume taken in a pause dials the next socket with the first backoff; taken anywhere else it is
      nothing. */
  lemma ResumeDials(s: State, expired: bool, ok: bool)
    requires s.commands != [] && s.commands[0] == Resume
    ensures s.phase == Paused ==>
      var t := Next(s, OfflineCommand);
      && t.phase == Dialing && !t.paused && t.socket == s.socket + 1 && t.backoff == 250
      && t.trace == s.trace + [PauseEnded, Dialed(s.socket + 1)] && t.commands == s.commands[1..]
    ensures s.phase == Dialing || s.phase == Backoff ==> Next(s, OfflineCommand) == s.(commands := s.commands[1..])
    ensures s.phase == Live ==> Next(s, LiveCommand(expired, ok)) == s.(commands := s.commands[1..])
  {
  }
}
