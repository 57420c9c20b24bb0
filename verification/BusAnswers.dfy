/** What a caller of the bus is told, and when it is told (bus.rs): every reply, refusal and
    end of a connection answers whoever waits for it. */
module BusAnswers {
  import opened Wrappers
  import opened Bus
  import BusCalls

  // ---- each handler's answer ---------------------------------------------

  /** A reply to a call still waiting is that caller's answer at once, the hub's own words; nobody else's
      call is touched. */
  lemma ReplyAnswersItsCaller(s: State, id: nat, body: Body, ok: bool)
    requires s.phase == Live && id in s.pending && s.pending[id] in s.calls
    ensures var t, call := Next(s, ReadFrame(Reply(Some(id), body), ok)), s.pending[id];
      && t.pending == s.pending - {id} && t.calls.Keys == s.calls.Keys
      && (s.calls[call] == Waiting(Empty) ==>
            t.calls[call] == Waiting(Filled(match body {
              case OpError(text) => HubError(text)
              case Refused(text) => HubError(text)
              case Value(value) => HubValue(value)
            })))
      && (forall c :: c in s.calls && (c != call || s.calls[c] != Waiting(Empty)) ==> t.calls[c] == s.calls[c])
  {
  }

  /** A call taken on a ready connection goes on the wire under the next id, unless it expired, its
      caller is gone or 64 are pending; then, and off the connection, its caller is told it was not sent. */
  lemma TakenCallIsWrittenOrRefused(s: State, call: nat, expired: bool, ok: bool)
    requires s.commands != [] && s.commands[0] == Call(call) && call in s.calls
    requires s.phase == Live || s.phase in {Paused, Dialing, Backoff}
    ensures var t := Next(s, if s.phase == Live then LiveCommand(expired, ok) else OfflineCommand);
      && t.commands == s.commands[1..]
      && if s.phase == Live && s.ready && !expired && !s.calls[call].Done? && |s.pending| < MAX_PENDING then
           && t.trace == s.trace + [Wrote(s.socket, s.counter + 1, call)]
           && t.pending == s.pending[s.counter + 1 := call] && t.calls == s.calls
         else
           && t.trace == s.trace && t.pending == s.pending
           && t.calls == (if s.calls[call] == Waiting(Empty) then s.calls[call := Waiting(Filled(NotSent))]
                          else s.calls)
  {
    var t := Next(s, if s.phase == Live then LiveCommand(expired, ok) else OfflineCommand);
    assert t.calls.Keys == s.calls.Keys;
  }

  /** However a connection ends, every caller whose call was pending on it is told that the outcome is
      unknown, and nothing stays pending. */
  lemma EndedConnectionAnswersEveryone(s: State, step: Step)
    requires Enabled(s, step) && Connection(s.phase) && Next(s, step).phase == Announcing
    ensures Next(s, step).pending == map[] && !Next(s, step).connected
    ensures forall id :: id in s.pending && s.pending[id] in s.calls && s.calls[s.pending[id]] == Waiting(Empty) ==>
      s.pending[id] in Next(s, step).calls &&
      Next(s, step).calls[s.pending[id]] == Waiting(Filled(OutcomeUnknown))
  {
    hide DropAll, Answer, AnswerAll, TakeLive, TakeFrame, Next;
    var t := Next(s, step);
    EndsEverything(s, step);
    forall id | id in s.pending && s.pending[id] in s.calls && s.calls[s.pending[id]] == Waiting(Empty)
      ensures s.pending[id] in t.calls && t.calls[s.pending[id]] == Waiting(Filled(OutcomeUnknown))
    {
      AllAnswered(s.calls, s.pending, id);
    }
  }

  predicate Ended(s: State, t: State) {
    t.pending == map[] && !t.connected && t.calls == AnswerAll(s.calls, s.pending.Values, OutcomeUnknown)
  }

  predicate OfCallers(step: Step) {
    step.Check? || step.Submit? || step.TimeOut? || step.Receive? || step.SubmitTopics? || step.SwapLatch? ||
    step.EnqueueResume? || step.TakeEvent?
  }

  lemma CallersStay(s: State, step: Step)
    requires Enabled(s, step) && OfCallers(step)
    ensures Next(s, step).phase == s.phase
  {
  }

  lemma EndsEverything(s: State, step: Step)
    requires Enabled(s, step) && Connection(s.phase) && Next(s, step).phase == Announcing
    ensures Ended(s, Next(s, step))
  {
    hide DropAll, Answer, AnswerAll, TakeLive, TakeFrame, TakeOffline, Redial, Resolve, Resuming, Submitted, Asked;
    if OfCallers(step) {
      CallersStay(s, step);
    } else {
      match step
      case LiveCommand(expired, ok) => LiveEnds(s, expired, ok);
      case ReadFrame(frame, ok) => FrameEnds(s, frame, ok);
      case _ =>
    }
  }

  lemma LiveEnds(s: State, expired: bool, ok: bool)
    requires s.phase == Live && s.commands != [] && TakeLive(s, expired, ok).phase == Announcing
    ensures Ended(s, TakeLive(s, expired, ok))
  {
    hide Answer, AnswerAll, Closed;
  }

  lemma FrameEnds(s: State, frame: Frame, ok: bool)
    requires s.phase == Live && TakeFrame(s, frame, ok).phase == Announcing
    ensures Ended(s, TakeFrame(s, frame, ok))
  {
    hide Answer, AnswerAll, CallResult;
  }

  lemma AllAnswered(calls: map<nat, Caller>, pending: map<nat, nat>, id: nat)
    requires id in pending && pending[id] in calls && calls[pending[id]] == Waiting(Empty)
    ensures pending[id] in AnswerAll(calls, pending.Values, OutcomeUnknown)
    ensures AnswerAll(calls, pending.Values, OutcomeUnknown)[pending[id]] == Waiting(Filled(OutcomeUnknown))
  {
  }

  /** A caller returns what its slot was filled with, and "outcome unknown" when its sender was dropped
      or it gave up first. */
  lemma CallerHearsItsSlot(s: State, call: nat, step: Step)
    requires Enabled(s, step) && (step == Receive(call) || step == TimeOut(call))
    ensures var verdict :=
        match s.calls[call] { case Waiting(Filled(v)) => v case _ => OutcomeUnknown };
      && Next(s, step).calls == s.calls[call := Done(verdict)]
      && Next(s, step).trace == s.trace + [Resolved(call, verdict)]
  {
  }

  // ---- over runs ---------------------------------------------------------

  /** The answer to a frame of this call was read: the call's own id, on the socket that carried it. */
  predicate AnswerRead(t: seq<IO>, i: int, j: int, call: nat) {
    && 0 <= i < j < |t| && t[i].Wrote? && t[i].call == call
    && t[j].Read? && t[j].socket == t[i].socket && t[j].frame.Reply? && t[j].frame.id == Some(t[i].id)
  }

  ghost predicate Answered(s: State) {
    forall i, j, c {:trigger AnswerRead(s.trace, i, j, c)} :: AnswerRead(s.trace, i, j, c) ==>
      c in s.calls && s.calls[c] != Waiting(Empty)
  }

  /** A caller that waits for a call already written has it pending on the present socket. */
  lemma WaitingIsPending(s: State, m: map<nat, BusCalls.Sender>, i: nat, call: nat)
    requires BusCalls.Inv(s, m) && i < |s.trace| && s.trace[i].Wrote? && s.trace[i].call == call
    ensures call in s.calls
    ensures s.calls[call] == Waiting(Empty) ==>
      s.trace[i].socket == s.socket && s.trace[i].id in s.pending && s.pending[s.trace[i].id] == call
  {
    hide BusCalls.Truthful;
    var w := s.trace[i];
    BusCalls.CallFacts(BusCalls.Calls(s), m, call);
    assert Wrote(w.socket, w.id, call) in s.trace;
    if call in s.calls && s.calls[call] == Waiting(Empty) && m[call].InPending? {
      var id := m[call].id;
      var k :| 0 <= k < |s.trace| && s.trace[k] == Wrote(s.socket, id, call);
      assert k == i;
    }
  }

  /** What a step may do to callers: those asking may come to wait, and nobody waits again. */
  ghost predicate Later(calls: map<nat, Caller>, later: map<nat, Caller>) {
    && (forall c :: c in calls ==> c in later)
    && (forall c :: c in later && later[c] == Waiting(Empty) ==>
          c in calls && (calls[c] == Waiting(Empty) || calls[c] == Asking))
  }

  lemma AnswersAreLater(calls: map<nat, Caller>, to: set<nat>, verdict: Verdict)
    ensures Later(calls, AnswerAll(calls, to, verdict)) && Later(calls, DropAll(calls, to)) && Later(calls, calls)
  {
  }

  lemma CallsMoveOn(s: State, step: Step)
    requires Enabled(s, step)
    ensures Later(s.calls, Next(s, step).calls)
  {
    hide Later, AnswerAll, DropAll, TakeLive, TakeFrame, TakeOffline, Answer;
    AnswersAreLater(s.calls, s.pending.Values, OutcomeUnknown);
    if step.Check? || step.Submit? || step.TimeOut? || step.Receive? {
      CallerMoves(s, step);
    } else {
      match step
      case OfflineCommand => QueueMoves(s, false, true);
      case LiveCommand(expired, ok) => QueueMoves(s, expired, ok);
      case Sweep(gone) => AnswersAreLater(s.calls, set id | id in gone :: s.pending[id], NotSent);
      case ReadFrame(frame, ok) => FrameMoves(s, frame, ok);
      case Stop => AnswersAreLater(s.calls, s.pending.Values + QueuedCalls(s.commands), NotSent);
      case _ =>
    }
  }

  lemma QueueMoves(s: State, expired: bool, ok: bool)
    requires s.commands != []
    ensures Later(s.calls, TakeOffline(s).calls) && Later(s.calls, TakeLive(s, expired, ok).calls)
  {
    hide Later, AnswerAll, Closed;
    AnswersAreLater(s.calls, s.pending.Values, OutcomeUnknown);
    if s.commands[0].Call? { AnswersAreLater(s.calls, {s.commands[0].call}, NotSent); }
  }

  lemma FrameMoves(s: State, frame: Frame, ok: bool)
    ensures Later(s.calls, TakeFrame(s, frame, ok).calls)
  {
    hide Later, AnswerAll, CallResult;
    AnswersAreLater(s.calls, s.pending.Values, OutcomeUnknown);
    if frame.Reply? && frame.id.Some? && frame.id.value in s.pending {
      AnswersAreLater(s.calls, {s.pending[frame.id.value]}, CallResult(frame.body));
    }
  }

  lemma CallerMoves(s: State, step: Step)
    requires Enabled(s, step) && (step.Check? || step.Submit? || step.TimeOut? || step.Receive?)
    ensures Later(s.calls, Next(s, step).calls)
  {
  }

  /** What a step adds to the history: at most one frame read, and that on the present socket. */
  ghost predicate Adds(t: seq<IO>, later: seq<IO>, read: Option<IO>) {
    && t <= later
    && forall j :: |t| <= j < |later| && later[j].Read? ==> read == Some(later[j]) && j == |t|
  }

  lemma TraceMovesOn(s: State, step: Step)
    requires Enabled(s, step)
    ensures Adds(s.trace, Next(s, step).trace,
                 if step.ReadFrame? then Some(Read(s.socket, step.frame)) else None)
  {
    hide AnswerAll, DropAll, Answer, Closed, TakeLive, TakeFrame, TakeOffline;
    match step
    case OfflineCommand => OfflineTrace(s);
    case LiveCommand(expired, ok) => LiveTrace(s, expired, ok);
    case ReadFrame(frame, ok) => FrameTrace(s, frame, ok);
    case _ =>
  }

  lemma OfflineTrace(s: State)
    requires s.commands != []
    ensures Adds(s.trace, TakeOffline(s).trace, None)
  {
    hide AnswerAll, Answer;
  }

  lemma LiveTrace(s: State, expired: bool, ok: bool)
    requires s.commands != []
    ensures Adds(s.trace, TakeLive(s, expired, ok).trace, None)
  {
    hide AnswerAll, Answer, Closed, Teardown;
    forall t: State ensures Teardown(t).trace == t.trace { EndIsQuiet(t); }
  }

  lemma EndIsQuiet(s: State)
    ensures Teardown(s).trace == s.trace
  {
    hide AnswerAll;
  }

  lemma FrameTrace(s: State, frame: Frame, ok: bool)
    ensures Adds(s.trace, TakeFrame(s, frame, ok).trace, Some(Read(s.socket, frame)))
  {
    hide AnswerAll, Answer, CallResult;
  }

  lemma AnsweredStep(s: State, step: Step, m: map<nat, BusCalls.Sender>)
    requires BusCalls.Inv(s, m) && Answered(s) && Enabled(s, step)
    ensures Answered(Next(s, step))
  {
    hide BusCalls.Inv, Next;
    var t := Next(s, step);
    CallsMoveOn(s, step);
    TraceMovesOn(s, step);
    forall i, j, c | AnswerRead(t.trace, i, j, c) ensures c in t.calls && t.calls[c] != Waiting(Empty) {
      if j < |s.trace| {
        assert AnswerRead(s.trace, i, j, c);
        WaitingIsPending(s, m, i, c);
        NotAsking(s, m, i, c);
      } else {
        assert i < |s.trace| && s.trace[i] == t.trace[i];
        WaitingIsPending(s, m, i, c);
        NotAsking(s, m, i, c);
        if s.calls[c] == Waiting(Empty) { ReplyAnswersItsCaller(s, s.trace[i].id, step.frame.body, step.ok); }
      }
    }
  }

  lemma NotAsking(s: State, m: map<nat, BusCalls.Sender>, i: nat, call: nat)
    requires BusCalls.Inv(s, m) && i < |s.trace| && s.trace[i].Wrote? && s.trace[i].call == call
    ensures call in s.calls && s.calls[call] != Asking
  {
    hide BusCalls.Truthful;
    BusCalls.CallFacts(BusCalls.Calls(s), m, call);
    assert Wrote(s.trace[i].socket, s.trace[i].id, call) in s.trace;
  }

  /** Once the reply to its own frame was read, no call is left waiting, in any run. */
  lemma {:induction false} ReadReplyLeavesNobodyWaiting(steps: seq<Step>)
    requires Exec(steps).Some?
    ensures Answered(Exec(steps).value)
  {
    hide Next, Answered;
    if steps == [] {
      assert Answered(Init()) by { NothingRead(); }
    } else {
      var before := steps[..|steps| - 1];
      ReadReplyLeavesNobodyWaiting(before);
      var m := BusCalls.RunKeeps(before);
      AnsweredStep(Exec(before).value, steps[|steps| - 1], m);
    }
  }

  lemma NothingRead()
    ensures Answered(Init())
  {
  }

  /** A caller waits only while its command is in the queue or its frame is pending on this socket; so
      nobody waits for an actor that stopped. */
  lemma {:induction false} WaitingHasASender(steps: seq<Step>, call: nat)
    requires Exec(steps).Some? && call in Exec(steps).value.calls
    requires Exec(steps).value.calls[call] == Waiting(Empty)
    ensures var s := Exec(steps).value;
      Call(call) in s.commands || exists id :: id in s.pending && s.pending[id] == call
  {
    var m := BusCalls.RunKeeps(steps);
    BusCalls.CallFacts(BusCalls.Calls(Exec(steps).value), m, call);
  }

  // ---- what the flags mean -----------------------------------------------

  /** How long the client waits before its n-th dial in a row. */
  function Wait(n: nat): nat {
    if n <= 1 then 250 else if 2 * Wait(n - 1) < 8000 then 2 * Wait(n - 1) else 8000
  }

  /** Dials in a row: since the last hello, which counts as one, or the end of a pause. */
  function Dials(t: seq<IO>): nat {
    if t == [] then 0
    else
      var n := Dials(t[..|t| - 1]);
      match t[|t| - 1]
      case Dialed(_) => n + 1
      case Read(_, frame) => if frame == Hello then 1 else n
      case PauseEnded => 0
      case _ => n
  }

  ghost predicate FlagsInv(s: State) {
    && s.backoff == Wait(Dials(s.trace)) && Dials(s.trace) > 0
    && (s.ready && Connection(s.phase) ==> s.backoff == FIRST_BACKOFF)
    && (s.phase != Stopped ==>
          && (s.connected <==> s.ready) && (s.ready ==> Connection(s.phase))
          && (s.ready && (s.phase == Live || s.phase == Sending) ==> s.sentTopics == s.topics))
  }

  lemma DialsMore(t: seq<IO>, e: IO)
    ensures Dials(t + [e]) == match e {
      case Dialed(_) => Dials(t) + 1
      case Read(_, frame) => if frame == Hello then 1 else Dials(t)
      case PauseEnded => 0
      case _ => Dials(t)
    }
  {
    assert (t + [e])[..|t|] == t;
  }

  lemma StartFlags()
    ensures FlagsInv(Init())
  {
    DialsMore([], Dialed(0));
    assert [] + [Dialed(0)] == [Dialed(0)];
  }

  lemma TeardownFlags(s: State)
    requires FlagsInv(s)
    ensures FlagsInv(Teardown(s))
  {
    hide Dials, Wait, AnswerAll;
  }

  lemma QuietFlags(s: State, e: IO)
    requires FlagsInv(s) && !e.Dialed? && !e.PauseEnded? && (e.Read? ==> e.frame != Hello)
    ensures FlagsInv(s.(trace := s.trace + [e]))
  {
    hide Dials, Wait;
    DialsMore(s.trace, e);
  }

  /** Facts about flags do not depend on callers, queues or the pending table. */
  lemma SameFlags(s: State, t: State)
    requires FlagsInv(s) && t.trace == s.trace && t.backoff == s.backoff && t.phase == s.phase
    requires t.connected == s.connected && t.ready == s.ready
    requires t.sentTopics == s.sentTopics && (t.topics == s.topics || !s.ready)
    ensures FlagsInv(t)
  {
    hide Dials, Wait;
  }

  lemma FrameFlags(s: State, frame: Frame, ok: bool)
    requires FlagsInv(s) && s.phase == Live
    ensures FlagsInv(TakeFrame(s, frame, ok))
  {
    hide Dials, Wait, AnswerAll, Teardown;
    var r := s.(trace := s.trace + [Read(s.socket, frame)]);
    if frame == Hello {
      DialsMore(s.trace, Read(s.socket, Hello));
      assert Wait(1) == 250 by { FirstWait(); }
    } else {
      QuietFlags(s, Read(s.socket, frame));
      TeardownFlags(r);
      if frame.EventFrame? && frame.topic.Some? {
        QuietFlags(r, Emitted(s.socket, Data(frame.topic.value, frame.data)));
      }
      QuietFlags(r, PauseBegan);
    }
  }

  lemma FirstWait()
    ensures Wait(1) == 250 && Wait(0) == 250
  {
  }

  lemma QueueFlags(s: State, step: Step)
    requires FlagsInv(s) && Enabled(s, step) && (step.OfflineCommand? || step.LiveCommand?)
    ensures FlagsInv(Next(s, step))
  {
    hide Dials, Wait, AnswerAll, Answer, Closed, Teardown;
    match s.commands[0]
    case Resume =>
      DialsMore(s.trace, PauseEnded);
      DialsMore(s.trace + [PauseEnded], Dialed(s.socket + 1));
      assert s.trace + [PauseEnded, Dialed(s.socket + 1)] == s.trace + [PauseEnded] + [Dialed(s.socket + 1)];
      FirstWait();
    case Topics(topics) => TopicsFlags(s, step);
    case Call(call) => QuietFlags(s, Wrote(s.socket, s.counter + 1, call));
  }

  lemma TopicsFlags(s: State, step: Step)
    requires FlagsInv(s) && Enabled(s, step) && (step.OfflineCommand? || step.LiveCommand?) && s.commands[0].Topics?
    ensures FlagsInv(Next(s, step))
  {
    hide Dials, Wait, AnswerAll, Answer, Closed;
  }

  lemma FlagsStep(s: State, step: Step)
    requires FlagsInv(s) && Enabled(s, step)
    ensures FlagsInv(Next(s, step))
  {
    hide Dials, Wait, AnswerAll, DropAll, TakeLive, TakeFrame, TakeOffline, Teardown, FlagsInv, EndAnnounced, Redial;
    match step
    case OfflineCommand => QueueFlags(s, step);
    case LiveCommand(_, _) => QueueFlags(s, step);
    case ReadFrame(frame, ok) => FrameFlags(s, frame, ok);
    case _ => RestFlags(s, step);
  }

  lemma RestFlags(s: State, step: Step)
    requires FlagsInv(s) && Enabled(s, step) && !step.OfflineCommand? && !step.LiveCommand? && !step.ReadFrame?
    ensures FlagsInv(Next(s, step))
  {
    hide Dials, Wait, AnswerAll, DropAll, TakeLive, TakeFrame, TakeOffline, Teardown;
    TeardownFlags(s);
    match step
    case Check(call) => QuietFlags(s, Resolved(call, NotSent));
    case Submit(call) => QuietFlags(s, Resolved(call, NotSent));
    case TimeOut(call) => QuietFlags(s, Resolved(call, OutcomeUnknown));
    case Receive(call) =>
      var slot := s.calls[call].slot;
      QuietFlags(s, Resolved(call, if slot.Filled? then slot.verdict else OutcomeUnknown));
    case EnqueueResume => QuietFlags(s, ResumeAccepted);
    case GreetDone(ok) => QuietFlags(s, Emitted(s.socket, Connected));
    case Announce =>
      QuietFlags(s, Emitted(s.socket, PowerPaused));
      QuietFlags(s, Emitted(s.socket, Disconnected));
    case BackoffDone =>
      DialsMore(s.trace, Dialed(s.socket + 1));
      NextWait(Dials(s.trace));
    case _ =>
  }

  lemma NextWait(n: nat)
    requires n > 0
    ensures Wait(n + 1) == if 2 * Wait(n) < 8000 then 2 * Wait(n) else 8000
  {
  }

  /** In every run: the window sees "connected" exactly while the hub has greeted this connection, the hub
      was last sent the topics wanted now, and the n-th dial in a row comes after 250 ms doubled n - 1
      times, 8 s at most. */
  lemma {:induction false} FlagsTellTheTruth(steps: seq<Step>)
    requires Exec(steps).Some?
    ensures FlagsInv(Exec(steps).value)
  {
    hide Next, FlagsInv;
    if steps == [] {
      StartFlags();
    } else {
      FlagsTellTheTruth(steps[..|steps| - 1]);
      FlagsStep(Exec(steps[..|steps| - 1]).value, steps[|steps| - 1]);
    }
  }
}
