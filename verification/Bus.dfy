/** The hub connection: one actor that owns the socket, and the callers that reach it
    through a bounded command queue (apps/native/src/bus.rs).

    Everything concurrent is one atomic `Step` of a `State`. A step is chosen freely, so a
    run is any interleaving of callers, expiries, socket failures and server frames. The
    ghost history `trace` records what reached the socket, what was read from it, what was
    announced to the window and what each caller was told.
*/
module Bus {
  import opened Wrappers

  const COMMAND_QUEUE := 64
  const EVENT_QUEUE := 256
  const MAX_PENDING := 64
  const FIRST_BACKOFF := 250
  const LAST_BACKOFF := 8000
  const PAUSE_CODE := 4001

  /** The body of a reply frame: an `error` op, a result with `ok: false`, or a plain result. */
  datatype Body = OpError(text: string) | Refused(text: string) | Value(value: int)

  /** What one `socket.next()` can yield. A reply id that is absent, or is not one of this
      client's numerals, reads as `None`. */
  datatype Frame =
    | Hello
    | Reply(id: Option<nat>, body: Body)
    | EventFrame(topic: Option<string>, data: int)
    | OtherOp
    | BadJson
    | Ping
    | Pong
    | Close(code: Option<nat>)
    | Gone

  datatype Event = Connected | Data(topic: string, data: int) | Disconnected | PowerPaused

  datatype Verdict =
    | NotSent
    | OutcomeUnknown
    | HubError(text: string)
    | HubValue(value: int)

  datatype Command = Resume | Call(call: nat) | Topics(topics: set<string>)

  /** The one-shot reply channel as the caller sees it. */
  datatype Slot = Empty | Filled(verdict: Verdict) | Dropped

  /** A caller inside `call_inner`: it saw the hub connected, it awaits a reply, or it returned. */
  datatype Caller = Asking | Waiting(slot: Slot) | Done(verdict: Verdict)

  /** Where the actor's loop stands. `Sending`, `Greeting` and `Closing` are the awaits inside
      one iteration of the connection loop during which no command is taken. */
  datatype Phase = Paused | Dialing | Live | Sending | Greeting | Closing | Announcing | Backoff | Stopped

  /** Inside the connection loop: the socket is there. */
  predicate Connection(phase: Phase) {
    phase == Live || phase == Sending || phase == Greeting || phase == Closing
  }

  datatype IO =
    | Dialed(socket: nat)
    | Wrote(socket: nat, id: nat, call: nat)
    | Read(socket: nat, frame: Frame)
    | Emitted(socket: nat, event: Event)
    | Resolved(call: nat, verdict: Verdict)
    | PauseBegan
    | ResumeAccepted
    | PauseEnded

  datatype State = State(
    // shared with the callers
    commands: seq<Command>,
    connected: bool,
    powerPaused: bool,
    resumesInFlight: nat,
    calls: map<nat, Caller>,
    // the actor
    phase: Phase,
    paused: bool,
    topics: set<string>,
    counter: nat,
    backoff: nat,
    socket: nat,
    ready: bool,
    sentTopics: set<string>,
    pending: map<nat, nat>,
    events: seq<Event>,
    // history
    trace: seq<IO>)

  datatype Step =
    | Check(call: nat)
    | Submit(call: nat)
    | TimeOut(call: nat)
    | Receive(call: nat)
    | SubmitTopics(topics: set<string>)
    | SwapLatch
    | EnqueueResume
    | TakeEvent
    | OfflineCommand
    | DialDone(ok: bool)
    | LiveCommand(expired: bool, ok: bool)
    | SendDone(ok: bool)
    | Sweep(gone: set<nat>)
    | Heartbeat(ok: bool)
    | ReadFrame(frame: Frame, ok: bool)
    | GreetDone(ok: bool)
    | FlushDone
    | Announce
    | BackoffDone
    | Stop

  function Init(): State {
    State([], false, false, 0, map[], Dialing, false, {}, 0, FIRST_BACKOFF, 0, false, {}, map[], [],
          [Dialed(0)])
  }

  // ---- one-shot replies -------------------------------------------------

  /** `reply.send(verdict)`: lost when the caller is gone. */
  function Answer(calls: map<nat, Caller>, call: nat, verdict: Verdict): map<nat, Caller> {
    AnswerAll(calls, {call}, verdict)
  }

  function AnswerAll(calls: map<nat, Caller>, to: set<nat>, verdict: Verdict): map<nat, Caller> {
    map c | c in calls ::
      if c in to && calls[c] == Waiting(Empty) then Waiting(Filled(verdict)) else calls[c]
  }

  /** Dropping a sender closes the channel of a caller still waiting on it. */
  function DropAll(calls: map<nat, Caller>, to: set<nat>): map<nat, Caller> {
    map c | c in calls ::
      if c in to && calls[c] == Waiting(Empty) then Waiting(Dropped) else calls[c]
  }

  predicate Closed(calls: map<nat, Caller>, call: nat) {
    call in calls && calls[call].Done?
  }

  function CallResult(body: Body): Verdict {
    match body
    case OpError(text) => HubError(text)
    case Refused(text) => HubError(text)
    case Value(value) => HubValue(value)
  }

  function QueuedCalls(commands: seq<Command>): set<nat> {
    set i | 0 <= i < |commands| && commands[i].Call? :: commands[i].call
  }

  // ---- handlers ---------------------------------------------------------

  /** `offline_command`, with the command just taken from the queue. In the paused loop a
      resume is the way out. */
  function TakeOffline(s: State): State
    requires s.commands != []
  {
    var rest := s.(commands := s.commands[1..]);
    match s.commands[0]
    case Resume =>
      if s.phase == Paused then
        rest.(phase := Dialing, paused := false, backoff := FIRST_BACKOFF, socket := s.socket + 1,
              trace := s.trace + [PauseEnded, Dialed(s.socket + 1)])
      else rest
    case Topics(topics) => rest.(topics := topics)
    case Call(call) => rest.(calls := Answer(s.calls, call, NotSent))
  }

  /** Leaving the connection loop: everything still pending has an unknown outcome. */
  function Teardown(s: State): State {
    s.(connected := false,
       calls := AnswerAll(s.calls, s.pending.Values, OutcomeUnknown),
       pending := map[],
       ready := false,
       phase := Announcing)
  }

  function TakeLive(s: State, expired: bool, ok: bool): State
    requires s.commands != []
  {
    var rest := s.(commands := s.commands[1..]);
    match s.commands[0]
    case Resume => rest
    case Topics(topics) =>
      var t := rest.(topics := topics);
      if !s.ready then t
      else if topics != s.sentTopics && !ok then Teardown(t)
      else t.(sentTopics := topics)
    case Call(call) =>
      if !s.ready || expired || Closed(s.calls, call) || |s.pending| >= MAX_PENDING then
        rest.(calls := Answer(s.calls, call, NotSent))
      else
        var id := s.counter + 1;
        rest.(counter := id,
              pending := s.pending[id := call],
              phase := Sending,
              trace := s.trace + [Wrote(s.socket, id, call)])
  }

  function TakeFrame(s: State, frame: Frame, ok: bool): State {
    var r := s.(trace := s.trace + [Read(s.socket, frame)]);
    match frame
    case Hello =>
      if s.ready then r
      else r.(ready := true, backoff := FIRST_BACKOFF, connected := true, phase := Greeting)
    case Reply(id, body) =>
      if id.Some? && id.value in s.pending then
        r.(calls := Answer(s.calls, s.pending[id.value], CallResult(body)),
           pending := s.pending - {id.value})
      else r
    case EventFrame(topic, data) =>
      if !s.ready || topic.None? then r
      else if |s.events| >= EVENT_QUEUE then Teardown(r)
      else Emit(r, Data(topic.value, data))
    case OtherOp => r
    case Pong => r
    case Ping => if ok then r else Teardown(r)
    case Close(code) =>
      if code == Some(PAUSE_CODE) then
        r.(paused := true, powerPaused := true, phase := Closing,
           trace := r.trace + [PauseBegan])
      else r.(phase := Closing)
    case BadJson => Teardown(r)
    case Gone => Teardown(r)
  }

  function Emit(s: State, event: Event): State {
    s.(events := s.events + [event], trace := s.trace + [Emitted(s.socket, event)])
  }

  /** The connection is over: say why, then sleep through a pause or back off. */
  function EndAnnounced(s: State): State {
    if s.paused then Emit(s.(phase := Paused), PowerPaused) else Emit(s.(phase := Backoff), Disconnected)
  }

  function Redial(s: State): State {
    s.(phase := Dialing, socket := s.socket + 1, trace := s.trace + [Dialed(s.socket + 1)],
       backoff := if 2 * s.backoff < LAST_BACKOFF then 2 * s.backoff else LAST_BACKOFF)
  }

  /** Dropping the actor drops every sender it or the queue still holds. */
  function Halt(s: State): State {
    s.(phase := Stopped,
       calls := DropAll(s.calls, s.pending.Values + QueuedCalls(s.commands)),
       commands := [],
       pending := map[])
  }

  // ---- callers -----------------------------------------------------------

  function Resolve(s: State, call: nat, verdict: Verdict): State {
    s.(calls := s.calls[call := Done(verdict)], trace := s.trace + [Resolved(call, verdict)])
  }

  predicate Accepting(s: State) {
    |s.commands| < COMMAND_QUEUE && s.phase != Stopped
  }

  function Asked(s: State, call: nat): State {
    if s.connected then s.(calls := s.calls[call := Asking]) else Resolve(s, call, NotSent)
  }

  function Submitted(s: State, call: nat): State {
    if Accepting(s) then s.(calls := s.calls[call := Waiting(Empty)], commands := s.commands + [Call(call)])
    else Resolve(s, call, NotSent)
  }

  function Swapped(s: State): State {
    s.(powerPaused := false, resumesInFlight := s.resumesInFlight + 1)
  }

  function Resuming(s: State): State
    requires s.resumesInFlight > 0
  {
    if Accepting(s) then
      s.(commands := s.commands + [Resume], resumesInFlight := s.resumesInFlight - 1,
         trace := s.trace + [ResumeAccepted])
    else s.(powerPaused := true, resumesInFlight := s.resumesInFlight - 1)
  }

  // ---- the transition system --------------------------------------------

  predicate Enabled(s: State, step: Step) {
    match step
    case Check(call) => call !in s.calls
    case Submit(call) => call in s.calls && s.calls[call] == Asking
    case TimeOut(call) => call in s.calls && s.calls[call] == Waiting(Empty)
    case Receive(call) =>
      call in s.calls && s.calls[call].Waiting? && s.calls[call].slot != Empty
    case SubmitTopics(_) => |s.commands| < COMMAND_QUEUE && s.phase != Stopped
    case SwapLatch => s.powerPaused
    case EnqueueResume => s.resumesInFlight > 0
    case TakeEvent => s.events != []
    case OfflineCommand => s.phase in {Paused, Dialing, Backoff} && s.commands != []
    case DialDone(_) => s.phase == Dialing
    case LiveCommand(_, _) => s.phase == Live && s.commands != []
    case SendDone(_) => s.phase == Sending
    case Sweep(gone) => s.phase == Live && gone <= s.pending.Keys
    case Heartbeat(_) => s.phase == Live
    case ReadFrame(_, _) => s.phase == Live
    case GreetDone(_) => s.phase == Greeting
    case FlushDone => s.phase == Closing
    case Announce => s.phase == Announcing && |s.events| < EVENT_QUEUE
    case BackoffDone => s.phase == Backoff
    case Stop => s.phase != Stopped
  }

  function Next(s: State, step: Step): State
    requires Enabled(s, step)
  {
    match step
    case Check(call) => Asked(s, call)
    case Submit(call) => Submitted(s, call)
    case TimeOut(call) => Resolve(s, call, OutcomeUnknown)
    case Receive(call) =>
      Resolve(s, call, if s.calls[call].slot.Filled? then s.calls[call].slot.verdict else OutcomeUnknown)
    case SubmitTopics(topics) => s.(commands := s.commands + [Topics(topics)])
    case SwapLatch => Swapped(s)
    case EnqueueResume => Resuming(s)
    case TakeEvent => s.(events := s.events[1..])
    case OfflineCommand => TakeOffline(s)
    case DialDone(ok) =>
      if ok then s.(phase := Live, ready := false, sentTopics := {}, pending := map[])
      else s.(connected := false, phase := Announcing)
    case LiveCommand(expired, ok) => TakeLive(s, expired, ok)
    case SendDone(ok) => if ok then s.(phase := Live) else Teardown(s)
    case Sweep(gone) =>
      s.(calls := DropAll(s.calls, set id | id in gone :: s.pending[id]), pending := s.pending - gone)
    case Heartbeat(ok) => if ok then s else Teardown(s)
    case ReadFrame(frame, ok) => TakeFrame(s, frame, ok)
    case GreetDone(ok) =>
      if ok && |s.events| < EVENT_QUEUE then Emit(s.(sentTopics := s.topics, phase := Live), Connected)
      else Teardown(s)
    case FlushDone => Teardown(s)
    case Announce => EndAnnounced(s)
    case BackoffDone => Redial(s)
    case Stop => Halt(s)
  }

  /** Where a run ends, if each of its steps was possible when it was taken. */
  function Exec(steps: seq<Step>): Option<State> {
    if steps == [] then Some(Init())
    else
      var last := steps[|steps| - 1];
      match Exec(steps[..|steps| - 1])
      case None => None
      case Some(before) => if Enabled(before, last) then Some(Next(before, last)) else None
  }
}
